/**
  The packet rules on logs.  A ledger holds what the applications of one end have seen: packets
  sent, delivered, acknowledged and timed out.  The handlers of `Packets` keep sequence counters,
  receipts, commitments and written acknowledgements in its place, and do exactly what the rules
  on ledgers say, over every run.
 */
module Ledgers {
  import opened Types
  import opened Packets

  datatype Ledger = Ledger(
    time: nat, open: bool, sent: seq<Deadline>, acked: seq<nat>, timedOut: seq<nat>, delivered: seq<nat>, heights: set<nat>)

  function LedgerOf(e: End): Ledger {
    Ledger(e.time, e.open, e.sent, e.acked, e.timedOut, e.delivered, e.heights)
  }

  function Blocks(chain: seq<End>): seq<Ledger> {
    seq(|chain|, i requires 0 <= i < |chain| => LedgerOf(chain[i]))
  }

  // ---- The rules --------------------------------------------------------------------------

  /** Sent, and neither acknowledged nor timed out. */
  predicate Outstanding(l: Ledger, s: nat) {
    1 <= s <= |l.sent| && s !in l.acked && s !in l.timedOut
  }

  function DeadlineIn(l: Ledger, s: nat): Deadline {
    if 1 <= s <= |l.sent| then l.sent[s - 1] else NEVER
  }

  predicate Provable(l: Ledger, peer: seq<Ledger>, h: nat) {
    h in l.heights && h < |peer|
  }

  /** An ordered channel delivers and acknowledges one packet after the other. */
  predicate Next(order: Order, log: seq<nat>, s: nat) {
    order.Ordered? ==> s == |log| + 1
  }

  function Receive(order: Order, l: Ledger, at: nat, peer: seq<Ledger>, s: nat, h: nat): Option<Ledger> {
    if l.open && Provable(l, peer, h) && Outstanding(peer[h], s) && !Expired(DeadlineIn(peer[h], s), at, l.time)
       && (s in l.delivered || Next(order, l.delivered, s))
    then Some(if s in l.delivered then l else l.(delivered := l.delivered + [s]))
    else None
  }

  function Acknowledge(order: Order, l: Ledger, peer: seq<Ledger>, s: nat, h: nat): Option<Ledger> {
    if !l.open then None
    else if !Outstanding(l, s) then Some(l)
    else if Provable(l, peer, h) && s in peer[h].delivered && Next(order, l.acked, s) then Some(l.(acked := l.acked + [s]))
    else None
  }

  function GiveUp(order: Order, l: Ledger, s: nat): Ledger {
    l.(timedOut := l.timedOut + [s], open := l.open && order.Unordered?)
  }

  function TimeOut(order: Order, l: Ledger, peer: seq<Ledger>, s: nat, h: nat): Option<Ledger> {
    if Provable(l, peer, h) && Expired(DeadlineIn(l, s), h, peer[h].time)
       && (Outstanding(l, s) ==> l.open && s !in peer[h].delivered)
    then Some(if Outstanding(l, s) then GiveUp(order, l, s) else l)
    else None
  }

  function TimeOutOnClose(order: Order, l: Ledger, peer: seq<Ledger>, s: nat, h: nat): Option<Ledger> {
    if !Outstanding(l, s) then Some(l)
    else if Provable(l, peer, h) && !peer[h].open && s !in peer[h].delivered then Some(GiveUp(order, l, s))
    else None
  }

  function Act(order: Order, l: Ledger, at: nat, peer: seq<Ledger>, m: Msg): Option<Ledger> {
    match m
    case UpdateClient(h) => if h < |peer| then Some(l.(heights := l.heights + {h})) else None
    case Recv(s, h) => Receive(order, l, at, peer, s, h)
    case Ack(s, h) => Acknowledge(order, l, peer, s, h)
    case Timeout(s, h) => TimeOut(order, l, peer, s, h)
    case TimeoutOnClose(s, h) => TimeOutOnClose(order, l, peer, s, h)
    case CloseConfirm(h) =>
      if l.open && Provable(l, peer, h) && !peer[h].open then Some(l.(open := false)) else None
  }

  function ActAll(order: Order, l: Ledger, at: nat, peer: seq<Ledger>, msgs: seq<Msg>): Option<Ledger>
    decreases |msgs|
  {
    if msgs == [] then Some(l)
    else
      match Act(order, l, at, peer, msgs[0])
      case None => None
      case Some(l') => ActAll(order, l', at, peer, msgs[1..])
  }

  predicate MayPost(l: Ledger, peer: seq<Ledger>, d: Deadline) {
    l.open && d != NEVER && forall h :: h in l.heights && h < |peer| ==> !Expired(d, h, peer[h].time)
  }

  /** The next block of a chain. */
  function Write(order: Order, chain: seq<Ledger>, peer: seq<Ledger>, delay: nat, a: Action): Ledger
    requires chain != []
  {
    var l := chain[|chain| - 1].(time := chain[|chain| - 1].time + delay);
    match a
    case Nothing => l
    case SendTo(d) => if MayPost(l, peer, d) then l.(sent := l.sent + [d]) else l
    case CloseInit => l.(open := false)
    case Tx(msgs) =>
      var r := ActAll(order, l, |chain|, peer, msgs);
      if msgs == [] || r.None? then l else r.value
  }

  /** Both ends of a channel. */
  datatype Books = Books(src: seq<Ledger>, dst: seq<Ledger>)

  function Keep(order: Order, steps: seq<Step>): (b: Books)
    ensures b.src != [] && b.dst != []
  {
    if steps == [] then Books([LedgerOf(NEW_END)], [LedgerOf(NEW_END)])
    else
      var b, st := Keep(order, steps[..|steps| - 1]), steps[|steps| - 1];
      if st.onSrc then b.(src := b.src + [Write(order, b.src, b.dst, st.delay, st.action)])
      else b.(dst := b.dst + [Write(order, b.dst, b.src, st.delay, st.action)])
  }

  // ---- The handlers follow the rules ---------------------------------------------------------

  function OnLedger(e: Option<End>): Option<Ledger> {
    if e.Some? then Some(LedgerOf(e.value)) else None
  }

  /** The counters and sets of an end say what its logs say. */
  lemma SameFacts(order: Order, e: End, s: nat)
    requires SenderOk(order, e) && ReceiverOk(order, e)
    ensures s in e.commitments <==> Outstanding(LedgerOf(e), s)
    ensures s in e.acks <==> s in e.delivered
    ensures s >= 1 ==> (Absent(order, e, s) <==> s !in e.delivered)
    ensures order.Ordered? ==> e.nextRecv == |e.delivered| + 1 && e.nextAck == |e.acked| + 1
    ensures order.Ordered? && s >= 1 ==> (s < e.nextRecv <==> s in e.delivered)
    ensures order.Unordered? ==> (s in e.receipts <==> s in e.delivered)
  {
    if order.Ordered? {
      CountsMembers(e.delivered, s);
    }
  }

  lemma PeerFacts(order: Order, chain: seq<End>, e: End, peer: seq<End>, s: nat, h: nat)
    requires Pair(order, chain + [e], peer) && h < |peer|
    ensures SenderOk(order, peer[h]) && ReceiverOk(order, peer[h])
    ensures s in peer[h].commitments <==> Outstanding(Blocks(peer)[h], s)
    ensures s in peer[h].acks <==> s in Blocks(peer)[h].delivered
    ensures s >= 1 ==> (Absent(order, peer[h], s) <==> s !in Blocks(peer)[h].delivered)
  {
    OldBlock(order, chain, e, peer, h);
    SameFacts(order, peer[h], s);
  }

  lemma RecvActs(order: Order, chain: seq<End>, e: End, peer: seq<End>, s: nat, h: nat)
    requires Pair(order, chain + [e], peer)
    ensures OnLedger(ExecRecv(order, e, |chain|, peer, s, h)) == Receive(order, LedgerOf(e), |chain|, Blocks(peer), s, h)
  {
    BlockInProgress(order, chain, e, peer);
    SameFacts(order, e, s);
    if h < |peer| {
      PeerFacts(order, chain, e, peer, s, h);
    }
  }

  lemma AckActs(order: Order, chain: seq<End>, e: End, peer: seq<End>, s: nat, h: nat)
    requires Pair(order, chain + [e], peer)
    ensures OnLedger(ExecAck(order, e, peer, s, h)) == Acknowledge(order, LedgerOf(e), Blocks(peer), s, h)
  {
    BlockInProgress(order, chain, e, peer);
    SameFacts(order, e, s);
    if h < |peer| {
      PeerFacts(order, chain, e, peer, s, h);
    }
  }

  lemma TimeoutActs(order: Order, chain: seq<End>, e: End, peer: seq<End>, s: nat, h: nat)
    requires Pair(order, chain + [e], peer)
    ensures OnLedger(ExecTimeout(order, e, peer, s, h)) == TimeOut(order, LedgerOf(e), Blocks(peer), s, h)
    ensures OnLedger(ExecTimeoutOnClose(order, e, peer, s, h)) == TimeOutOnClose(order, LedgerOf(e), Blocks(peer), s, h)
  {
    BlockInProgress(order, chain, e, peer);
    SameFacts(order, e, s);
    if h < |peer| {
      PeerFacts(order, chain, e, peer, s, h);
    }
  }

  /** One message: accepted on logs exactly when on counters, with the same effect. */
  lemma ExecActs(order: Order, chain: seq<End>, e: End, peer: seq<End>, m: Msg)
    requires Pair(order, chain + [e], peer)
    ensures OnLedger(Exec(order, e, |chain|, peer, m)) == Act(order, LedgerOf(e), |chain|, Blocks(peer), m)
  {
    match m
    case UpdateClient(h) =>
    case Recv(s, h) => RecvActs(order, chain, e, peer, s, h);
    case Ack(s, h) => AckActs(order, chain, e, peer, s, h);
    case Timeout(s, h) => TimeoutActs(order, chain, e, peer, s, h);
    case TimeoutOnClose(s, h) => TimeoutActs(order, chain, e, peer, s, h);
    case CloseConfirm(h) =>
  }

  lemma {:induction false} TxActs(order: Order, chain: seq<End>, e: End, peer: seq<End>, msgs: seq<Msg>)
    requires Pair(order, chain + [e], peer)
    ensures OnLedger(ExecTx(order, e, |chain|, peer, msgs)) == ActAll(order, LedgerOf(e), |chain|, Blocks(peer), msgs)
    decreases |msgs|
  {
    if msgs != [] {
      ExecActs(order, chain, e, peer, msgs[0]);
      if Exec(order, e, |chain|, peer, msgs[0]).Some? {
        ExecKeeps(order, chain, e, peer, msgs[0]);
        TxActs(order, chain, Exec(order, e, |chain|, peer, msgs[0]).value, peer, msgs[1..]);
      }
    }
  }

  lemma BlockActs(order: Order, chain: seq<End>, peer: seq<End>, delay: nat, a: Action)
    requires Pair(order, chain, peer)
    ensures LedgerOf(NextBlock(order, chain, peer, delay, a)) == Write(order, Blocks(chain), Blocks(peer), delay, a)
  {
    IdleKeeps(order, chain, peer, delay);
    if a.Tx? {
      TxActs(order, chain, Begin(Last(chain), delay), peer, a.msgs);
    }
  }

  lemma BlocksSnoc(chain: seq<End>, e: End)
    ensures Blocks(chain + [e]) == Blocks(chain) + [LedgerOf(e)]
  {
  }

  /** Every run of the channel, seen on its logs, is a run of the rules. */
  lemma {:induction false} RunActs(order: Order, steps: seq<Step>)
    ensures Books(Blocks(Run(order, steps).src), Blocks(Run(order, steps).dst)) == Keep(order, steps)
  {
    if steps == [] {
      BlocksSnoc([], NEW_END);
    } else {
      var front, st := steps[..|steps| - 1], steps[|steps| - 1];
      var n := Run(order, front);
      RunActs(order, front);
      RunKeeps(order, front);
      if st.onSrc {
        BlockActs(order, n.src, n.dst, st.delay, st.action);
        BlocksSnoc(n.src, NextBlock(order, n.src, n.dst, st.delay, st.action));
      } else {
        BlockActs(order, n.dst, n.src, st.delay, st.action);
        BlocksSnoc(n.dst, NextBlock(order, n.dst, n.src, st.delay, st.action));
      }
    }
  }
}
