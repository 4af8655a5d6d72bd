/**
  The code of one relay round as the relayer runs it (deps/relayer/relayer/naive-strategy.go
  and relayMsgs.go): the loop that turns sequences into messages, the queues of
  `RelayPackets` and `RelayAcknowledgements`, the prepended client updates and the two
  sends.  The chains themselves answer the sends, so an error is reported exactly when a
  batch is rejected.
 */
module RelayRound {
  import opened Types
  import opened Packets
  import opened Batching
  import opened Relay
  import opened Rounds

  /** What `RelayPacketFromSequence` returns: an error, or a receive and a timeout, each possibly nil. */
  datatype Reply = Failed | Answer(recv: Option<Message<Msg>>, timeout: Option<Message<Msg>>)

  /** Nil messages are not appended. */
  function Optional(m: Option<Message<Msg>>): seq<Message<Msg>> {
    if m.Some? then [m.value] else []
  }

  function RecvsOf(provide: nat -> Reply, q: seq<nat>): seq<Message<Msg>> {
    if q == [] then []
    else RecvsOf(provide, q[..|q| - 1]) + (match provide(q[|q| - 1]) case Failed => [] case Answer(r, _) => Optional(r))
  }

  function TimeoutsOf(provide: nat -> Reply, q: seq<nat>): seq<Message<Msg>> {
    if q == [] then []
    else TimeoutsOf(provide, q[..|q| - 1]) + (match provide(q[|q| - 1]) case Failed => [] case Answer(_, t) => Optional(t))
  }

  /** The queues after the first `i` sequences. */
  ghost predicate Added(provide: nat -> Reply, q: seq<nat>, i: nat, src: seq<Message<Msg>>, dst: seq<Message<Msg>>,
                        src': seq<Message<Msg>>, dst': seq<Message<Msg>>)
  {
    && i <= |q|
    && (forall k :: 0 <= k < i ==> provide(q[k]).Answer?)
    && src' == src + TimeoutsOf(provide, q[..i])
    && dst' == dst + RecvsOf(provide, q[..i])
  }

  lemma AddNext(provide: nat -> Reply, q: seq<nat>, i: nat, src: seq<Message<Msg>>, dst: seq<Message<Msg>>,
                src': seq<Message<Msg>>, dst': seq<Message<Msg>>)
    requires i < |q| && Added(provide, q, i, src, dst, src', dst') && provide(q[i]).Answer?
    ensures Added(provide, q, i + 1, src, dst, src' + Optional(provide(q[i]).timeout), dst' + Optional(provide(q[i]).recv))
  {
    assert q[..i + 1][..i] == q[..i];
    Associate(src, TimeoutsOf(provide, q[..i]), Optional(provide(q[i]).timeout));
    Associate(dst, RecvsOf(provide, q[..i]), Optional(provide(q[i]).recv));
  }

  /** `AddMessagesForSequences`: receives go to the destination queue, timeouts to the source queue; the first error stops it. */
  method AddMessagesForSequences(sequences: seq<nat>, provide: nat -> Reply,
                                 srcMsgs: seq<Message<Msg>>, dstMsgs: seq<Message<Msg>>)
    returns (ok: bool, srcMsgs': seq<Message<Msg>>, dstMsgs': seq<Message<Msg>>, ghost added: nat)
    ensures added <= |sequences| && (ok <==> added == |sequences|)
    ensures forall i :: 0 <= i < added ==> provide(sequences[i]).Answer?
    ensures !ok ==> provide(sequences[added]).Failed?
    ensures srcMsgs' == srcMsgs + TimeoutsOf(provide, sequences[..added])
    ensures dstMsgs' == dstMsgs + RecvsOf(provide, sequences[..added])
  {
    srcMsgs', dstMsgs', added := srcMsgs, dstMsgs, 0;
    for i := 0 to |sequences|
      invariant added == i && Added(provide, sequences, i, srcMsgs, dstMsgs, srcMsgs', dstMsgs')
    {
      var reply := provide(sequences[i]);
      if reply.Failed? {
        return false, srcMsgs', dstMsgs', added;
      }
      AddNext(provide, sequences, i, srcMsgs, dstMsgs, srcMsgs', dstMsgs');
      dstMsgs' := dstMsgs' + Optional(reply.recv);
      srcMsgs' := srcMsgs' + Optional(reply.timeout);
      added := i + 1;
    }
    ok := true;
    assert sequences[..|sequences|] == sequences;
  }

  // ---- The provider over two chains ----------------------------------------------------

  /**
    `RelayPacketFromSequence` for packets of `sender`, proved at its height `h` and judged at the
    receiver's latest block.  A packet without a deadline is refused, and the remote queries for
    it may fail.
   */
  function Provide(sender: End, h: nat, seen: Moment, size: Msg -> nat, answers: nat -> bool): nat -> Reply {
    (s: nat) =>
      if !answers(s) || DeadlineOf(sender, s) == NEVER then Failed
      else if Lapsed(sender, seen, s) then
        Answer(None, Some(Message(Timeout(s, seen.height), size(Timeout(s, seen.height)))))
      else Answer(Some(Message(Recv(s, h), size(Recv(s, h)))), None)
  }

  /** The provider refuses a packet exactly when a query for it fails or it has neither timeout height nor timestamp. */
  lemma RefusedIff(sender: End, h: nat, seen: Moment, size: Msg -> nat, answers: nat -> bool, s: nat)
    requires 1 <= s <= |sender.sent|
    ensures Provide(sender, h, seen, size, answers)(s).Failed? <==>
            !answers(s) || (sender.sent[s - 1].height == 0 && sender.sent[s - 1].timestamp == 0)
  {
  }

  /** Every packet of `q` has been sent, and with a deadline. */
  ghost predicate Dated(sender: End, q: seq<nat>) {
    forall s :: s in q ==> DeadlineOf(sender, s) != NEVER
  }

  /** The remote queries for all of them are answered. */
  predicate AllAnswer(answers: nat -> bool, q: seq<nat>) {
    forall i :: 0 <= i < |q| ==> answers(q[i])
  }

  /** The provider answers for such packets: a receive for each live one, a timeout for each expired one. */
  lemma {:induction false} ProvidedBodies(sender: End, h: nat, seen: Moment, size: Msg -> nat, answers: nat -> bool, q: seq<nat>)
    requires Dated(sender, q) && AllAnswer(answers, q)
    ensures forall i :: 0 <= i < |q| ==> Provide(sender, h, seen, size, answers)(q[i]).Answer?
    ensures Bodies(RecvsOf(Provide(sender, h, seen, size, answers), q)) == Recvs(Live(sender, seen, q), h)
    ensures Bodies(TimeoutsOf(Provide(sender, h, seen, size, answers), q)) == Timeouts(Dead(sender, seen, q), seen.height)
  {
    if q != [] {
      var p, s := q[..|q| - 1], q[|q| - 1];
      assert s in q && forall t :: t in p ==> t in q;
      ProvidedBodies(sender, h, seen, size, answers, p);
      OneProvided(sender, h, seen, size, answers, s);
      ProvidedSnoc(sender, h, seen, size, answers, q);
    }
  }

  lemma ProvidedSnoc(sender: End, h: nat, seen: Moment, size: Msg -> nat, answers: nat -> bool, q: seq<nat>)
    requires q != [] && DeadlineOf(sender, q[|q| - 1]) != NEVER && answers(q[|q| - 1])
    requires var provide, p := Provide(sender, h, seen, size, answers), q[..|q| - 1];
             && Bodies(RecvsOf(provide, p)) == Recvs(Live(sender, seen, p), h)
             && Bodies(TimeoutsOf(provide, p)) == Timeouts(Dead(sender, seen, p), seen.height)
    ensures Bodies(RecvsOf(Provide(sender, h, seen, size, answers), q)) == Recvs(Live(sender, seen, q), h)
    ensures Bodies(TimeoutsOf(Provide(sender, h, seen, size, answers), q)) == Timeouts(Dead(sender, seen, q), seen.height)
  {
    var p, s := q[..|q| - 1], q[|q| - 1];
    var provide := Provide(sender, h, seen, size, answers);
    OneProvided(sender, h, seen, size, answers, s);
    BodiesConcat(RecvsOf(provide, p), Optional(provide(s).recv));
    BodiesConcat(TimeoutsOf(provide, p), Optional(provide(s).timeout));
    SnocTimeouts(Dead(sender, seen, p), s, seen.height);
    SnocRecvs(Live(sender, seen, p), s, h);
  }

  lemma OneProvided(sender: End, h: nat, seen: Moment, size: Msg -> nat, answers: nat -> bool, s: nat)
    requires DeadlineOf(sender, s) != NEVER && answers(s)
    ensures var reply := Provide(sender, h, seen, size, answers)(s);
            && reply.Answer?
            && Bodies(Optional(reply.recv)) == (if Lapsed(sender, seen, s) then [] else [Recv(s, h)])
            && Bodies(Optional(reply.timeout)) == (if Lapsed(sender, seen, s) then [Timeout(s, seen.height)] else [])
  {
  }

  lemma SnocRecvs(q: seq<nat>, s: nat, h: nat)
    ensures Recvs(q + [s], h) == Recvs(q, h) + [Recv(s, h)]
  {
  }

  lemma SnocTimeouts(q: seq<nat>, s: nat, h: nat)
    ensures Timeouts(q + [s], h) == Timeouts(q, h) + [Timeout(s, h)]
  {
  }

  // ---- Client updates ---------------------------------------------------------------------

  /** `PrependMsgUpdateClient` for one queue. */
  method PrependUpdate(queue: seq<Message<Msg>>, h: nat, size: Msg -> nat) returns (queue': seq<Message<Msg>>)
    ensures Bodies(queue') == WithUpdate(Bodies(queue), h)
    ensures queue == [] ==> queue' == []
    ensures queue != [] ==> queue' == [Message(UpdateClient(h), size(UpdateClient(h)))] + queue
  {
    queue' := queue;
    if |queue| > 0 {
      queue' := [Message(UpdateClient(h), size(UpdateClient(h)))] + queue;
    } else {
      assert Bodies(queue) == [];
    }
  }

  // ---- What the chains report ---------------------------------------------------------------

  /** `SendMessages` against a chain: the last batch of a log was accepted or not. */
  function Report(order: Order, chain: seq<End>, peer: seq<End>, slots: nat -> Slot): seq<seq<Message<Msg>>> -> Response
    requires chain != []
  {
    (log: seq<seq<Message<Msg>>>) =>
      if log == [] || SendLog(order, chain, peer, log, slots).accepted[|log| - 1] then Response(true, [])
      else Response(false, ["rejected"])
  }

  function CountTrue(accepted: seq<bool>): nat {
    if accepted == [] then 0 else CountTrue(accepted[..|accepted| - 1]) + if accepted[|accepted| - 1] then 1 else 0
  }

  /** The errors and successes that `send` books are the rejections and acceptances of the chain. */
  lemma {:induction false} Reported(order: Order, chain: seq<End>, peer: seq<End>, log: seq<seq<Message<Msg>>>, slots: nat -> Slot)
    requires chain != []
    ensures var respond, accepted := Report(order, chain, peer, slots), SendLog(order, chain, peer, log, slots).accepted;
            && (Errors(respond, log) == [] <==> AllAccepted(accepted))
            && Successes(respond, log) == CountTrue(accepted)
  {
    if log != [] {
      Reported(order, chain, peer, log[..|log| - 1], slots);
      AcceptedPrefix(order, chain, peer, log, slots);
      LastReport(order, chain, peer, log, slots);
    }
  }

  lemma LastReport(order: Order, chain: seq<End>, peer: seq<End>, log: seq<seq<Message<Msg>>>, slots: nat -> Slot)
    requires chain != [] && log != []
    ensures var respond, ok := Report(order, chain, peer, slots), SendLog(order, chain, peer, log, slots).accepted[|log| - 1];
            && (Errors(respond, log) == [] <==> Errors(respond, log[..|log| - 1]) == [] && ok)
            && Successes(respond, log) == Successes(respond, log[..|log| - 1]) + (if ok then 1 else 0)
  {
    var respond := Report(order, chain, peer, slots);
    assert |respond(log).errors| == if respond(log).success then 0 else 1;
  }

  lemma AcceptedPrefix(order: Order, chain: seq<End>, peer: seq<End>, log: seq<seq<Message<Msg>>>, slots: nat -> Slot)
    requires chain != [] && log != []
    ensures var k := |log| - 1;
            var front, all := SendLog(order, chain, peer, log[..k], slots).accepted, SendLog(order, chain, peer, log, slots).accepted;
            && all[..k] == front && (AllAccepted(all) <==> AllAccepted(front) && all[k])
  {
    var k := |log| - 1;
    var front, all := SendLog(order, chain, peer, log[..k], slots).accepted, SendLog(order, chain, peer, log, slots).accepted;
    assert all == front + [all[k]];
    if AllAccepted(all) {
      assert forall i :: 0 <= i < k ==> front[i] == all[i];
    }
  }

  // ---- The rounds -------------------------------------------------------------------------

  /** Queues for one direction of `RelayPackets`. */
  method PacketMessages(sender: End, h: nat, seen: Moment, size: Msg -> nat, answers: nat -> bool, pending: seq<nat>)
    returns (ok: bool, timeouts: seq<Message<Msg>>, recvs: seq<Message<Msg>>)
    requires Dated(sender, pending)
    ensures ok <==> AllAnswer(answers, pending)
    ensures ok ==> Bodies(timeouts) == Timeouts(Dead(sender, seen, pending), seen.height)
    ensures ok ==> Bodies(recvs) == Recvs(Live(sender, seen, pending), h)
  {
    var done, t, m, added := AddMessagesForSequences(pending, Provide(sender, h, seen, size, answers), [], []);
    ok, timeouts, recvs := done, t, m;
    assert pending[..|pending|] == pending;
    if AllAnswer(answers, pending) {
      ProvidedBodies(sender, h, seen, size, answers, pending);
    } else {
      NotAllProvided(sender, h, seen, size, answers, pending);
    }
  }

  lemma NotAllProvided(sender: End, h: nat, seen: Moment, size: Msg -> nat, answers: nat -> bool, q: seq<nat>)
    requires !AllAnswer(answers, q)
    ensures exists i :: 0 <= i < |q| && Provide(sender, h, seen, size, answers)(q[i]).Failed?
  {
    var i :| 0 <= i < |q| && !answers(q[i]);
    assert Provide(sender, h, seen, size, answers)(q[i]).Failed?;
  }

  /** The client update is too large for a transaction of its own. */
  predicate UpdateOversized(l: Limits, size: Msg -> nat, h: nat) {
    l.maxTxSize != 0 && size(UpdateClient(h)) > l.maxTxSize
  }

  /** No batch is empty. */
  ghost predicate NoEmptyBatch(log: seq<seq<Message<Msg>>>) {
    forall k :: 0 <= k < |log| ==> log[k] != []
  }

  /** A greedy log of a queue that starts with the update: an empty batch is sent exactly when the update is oversized. */
  lemma EmptyBatchIff(l: Limits, log: seq<seq<Message<Msg>>>)
    requires GreedyLog(l, Flatten(log), log)
    ensures NoEmptyBatch(log) <==> Flatten(log) == [] || !Oversized(l, Flatten(log)[0])
  {
    forall k: nat | k < |log|
      ensures log[k] == [] <==> k == 0 && Flatten(log) != [] && Oversized(l, Flatten(log)[0])
    {
      OnlyLeadIsEmpty(l, Flatten(log), log, k);
    }
    if Flatten(log) != [] && Oversized(l, Flatten(log)[0]) {
      assert log != [] && log[0] == [];
    }
  }

  /** With nothing but empty batches rejected, a send reports no error if and only if there was none. */
  lemma NoErrorIff(log: seq<seq<Message<Msg>>>, accepted: seq<bool>)
    requires AcceptedUnlessEmpty(log, accepted)
    ensures AllAccepted(accepted) <==> NoEmptyBatch(log)
  {
  }

  /**
    A queue was sent to a chain: the batches are the queue, cut greedily, an error means a
    rejection, and an empty batch means that the client update in front is oversized.
   */
  ghost predicate IsSend(order: Order, chain: seq<End>, peer: seq<End>, slots: nat -> Slot, queue: seq<Msg>, l: Limits,
                         size: Msg -> nat, log: seq<seq<Message<Msg>>>, err: bool)
    requires chain != [] && peer != []
  {
    && Bodies(Flatten(log)) == queue && GreedyLog(l, Flatten(log), log)
    && (err <==> !AllAccepted(SendLog(order, chain, peer, log, slots).accepted))
    && (NoEmptyBatch(log) <==> queue == [] || !UpdateOversized(l, size, |peer| - 1))
  }

  /** Prepends the client update and sends one queue to a chain; `whole` is what then goes out. */
  method SendUpdated(order: Order, chain: seq<End>, peer: seq<End>, slots: nat -> Slot, queue: seq<Message<Msg>>,
                     l: Limits, size: Msg -> nat, ghost whole: seq<Msg>)
    returns (log: seq<seq<Message<Msg>>>, err: bool)
    requires chain != [] && peer != [] && whole == WithUpdate(Bodies(queue), |peer| - 1)
    ensures IsSend(order, chain, peer, slots, whole, l, size, log, err)
  {
    var full := PrependUpdate(queue, |peer| - 1, size);
    assert |Bodies(full)| == |full|;
    log, err := SendOut(order, chain, peer, slots, full, l, size, whole);
  }

  /** `send` to a chain. */
  method SendOut(order: Order, chain: seq<End>, peer: seq<End>, slots: nat -> Slot, full: seq<Message<Msg>>, l: Limits,
                 size: Msg -> nat, ghost whole: seq<Msg>)
    returns (log: seq<seq<Message<Msg>>>, err: bool)
    requires chain != [] && peer != [] && Bodies(full) == whole
    requires full != [] ==> full[0] == Message(UpdateClient(|peer| - 1), size(UpdateClient(|peer| - 1)))
    ensures IsSend(order, chain, peer, slots, whole, l, size, log, err)
  {
    var sent, _, errors := SendQueue(l, full, Report(order, chain, peer, slots));
    SentFacts(order, chain, peer, slots, l, size, full, sent, errors);
    log, err := sent, errors != [];
  }

  lemma SentFacts(order: Order, chain: seq<End>, peer: seq<End>, slots: nat -> Slot, l: Limits, size: Msg -> nat,
                  full: seq<Message<Msg>>, log: seq<seq<Message<Msg>>>, errors: seq<string>)
    requires chain != [] && peer != [] && GreedyLog(l, full, log) && errors == Errors(Report(order, chain, peer, slots), log)
    requires full != [] ==> full[0] == Message(UpdateClient(|peer| - 1), size(UpdateClient(|peer| - 1)))
    ensures IsSend(order, chain, peer, slots, Bodies(full), l, size, log, errors != [])
  {
    Reported(order, chain, peer, log, slots);
    LogIsQueue(l, full, log);
    EmptyBatchIff(l, log);
    assert |Bodies(full)| == |full|;
  }

  /** `PrependMsgUpdateClient` and `Send` for both chains. */
  method Send(n: Net, srcMsgs: seq<Message<Msg>>, dstMsgs: seq<Message<Msg>>, srcSlots: nat -> Slot, dstSlots: nat -> Slot,
              l: Limits, size: Msg -> nat, ghost srcWhole: seq<Msg>, ghost dstWhole: seq<Msg>)
    returns (srcLog: seq<seq<Message<Msg>>>, srcErr: bool, dstLog: seq<seq<Message<Msg>>>, dstErr: bool)
    requires n.src != [] && n.dst != []
    requires srcWhole == WithUpdate(Bodies(srcMsgs), |n.dst| - 1) && dstWhole == WithUpdate(Bodies(dstMsgs), |n.src| - 1)
    ensures IsSend(n.order, n.src, n.dst, srcSlots, srcWhole, l, size, srcLog, srcErr)
    ensures IsSend(n.order, n.dst, n.src, dstSlots, dstWhole, l, size, dstLog, dstErr)
  {
    srcLog, srcErr := SendUpdated(n.order, n.src, n.dst, srcSlots, srcMsgs, l, size, srcWhole);
    dstLog, dstErr := SendUpdated(n.order, n.dst, n.src, dstSlots, dstMsgs, l, size, dstWhole);
  }

  // ---- Remote failures ------------------------------------------------------------------------

  /** Which remote queries of a phase are answered: latest heights, those for each packet, and the headers of the updates. */
  datatype Remote = Remote(heights: bool, mine: nat -> bool, theirs: nat -> bool, headers: bool)

  /** Nothing keeps the phase from being sent; headers are asked for only when there is something to send. */
  predicate Answered(remote: Remote, mine: seq<nat>, theirs: seq<nat>) {
    && remote.heights && AllAnswer(remote.mine, mine) && AllAnswer(remote.theirs, theirs)
    && (remote.headers || (mine == [] && theirs == []))
  }

  /** `RelayPackets`, up to the sends: the two queues of the packet phase, without their updates. */
  method BuildPackets(n: Net, mine: seq<nat>, theirs: seq<nat>, size: Msg -> nat, remote: Remote)
    returns (ok: bool, srcMsgs: seq<Message<Msg>>, dstMsgs: seq<Message<Msg>>)
    requires n.src != [] && n.dst != [] && Dated(Last(n.src), mine) && Dated(Last(n.dst), theirs)
    ensures ok <==> AllAnswer(remote.mine, mine) && AllAnswer(remote.theirs, theirs)
    ensures ok ==> WithUpdate(Bodies(srcMsgs), |n.dst| - 1) == PacketQueue(n.src, n.dst, mine, theirs, true)
    ensures ok ==> WithUpdate(Bodies(dstMsgs), |n.src| - 1) == PacketQueue(n.dst, n.src, theirs, mine, false)
  {
    var ok1, msgsSrc1, msgsDst1 := PacketMessages(Last(n.src), |n.src| - 1, Tip(n.dst), size, remote.mine, mine);
    var ok2, msgsDst2, msgsSrc2 := PacketMessages(Last(n.dst), |n.dst| - 1, Tip(n.src), size, remote.theirs, theirs);
    ok, srcMsgs, dstMsgs := ok1 && ok2, msgsSrc1 + msgsSrc2, msgsDst1 + msgsDst2;
    if ok {
      QueueBuilt(n.src, n.dst, mine, theirs, true, msgsSrc1, msgsSrc2);
      QueueBuilt(n.dst, n.src, theirs, mine, false, msgsDst2, msgsDst1);
    }
  }

  lemma QueueBuilt(self: seq<End>, peer: seq<End>, mine: seq<nat>, theirs: seq<nat>, first: bool,
                   timeouts: seq<Message<Msg>>, recvs: seq<Message<Msg>>)
    requires self != [] && peer != []
    requires Bodies(timeouts) == Timeouts(Dead(Last(self), Tip(peer), mine), |peer| - 1)
    requires Bodies(recvs) == Recvs(Live(Last(peer), Tip(self), theirs), |peer| - 1)
    ensures WithUpdate(Bodies(if first then timeouts + recvs else recvs + timeouts), |peer| - 1)
         == PacketQueue(self, peer, mine, theirs, first)
  {
    BodiesConcat(timeouts, recvs);
    BodiesConcat(recvs, timeouts);
  }

  /**
    `RelayPackets` for the pending packets of both chains: builds both queues, prepends the
    updates and sends, unless a remote query fails.
   */
  method RelayPackets(n: Net, mine: seq<nat>, theirs: seq<nat>, srcSlots: nat -> Slot, dstSlots: nat -> Slot,
                      l: Limits, size: Msg -> nat, remote: Remote)
    returns (sent: bool, srcLog: seq<seq<Message<Msg>>>, srcErr: bool, dstLog: seq<seq<Message<Msg>>>, dstErr: bool)
    requires n.src != [] && n.dst != [] && Dated(Last(n.src), mine) && Dated(Last(n.dst), theirs)
    ensures sent <==> Answered(remote, mine, theirs)
    ensures sent ==> IsSend(n.order, n.src, n.dst, srcSlots, PacketQueue(n.src, n.dst, mine, theirs, true), l, size, srcLog, srcErr)
    ensures sent ==> IsSend(n.order, n.dst, n.src, dstSlots, PacketQueue(n.dst, n.src, theirs, mine, false), l, size, dstLog, dstErr)
    ensures !sent ==> srcLog == [] && dstLog == []
  {
    sent, srcLog, srcErr, dstLog, dstErr := false, [], true, [], true;
    if !remote.heights {
      return;
    }
    var ok, srcMsgs, dstMsgs := BuildPackets(n, mine, theirs, size, remote);
    if !ok || (!remote.headers && (|mine| > 0 || |theirs| > 0)) {
      return;
    }
    sent := true;
    srcLog, srcErr, dstLog, dstErr :=
      Send(n, srcMsgs, dstMsgs, srcSlots, dstSlots, l, size,
           PacketQueue(n.src, n.dst, mine, theirs, true), PacketQueue(n.dst, n.src, theirs, mine, false));
  }

  /** The messages of `RelayAcknowledgements` for one chain; the first query that fails ends it. */
  method AckMessages(seqs: seq<nat>, h: nat, size: Msg -> nat, answers: nat -> bool) returns (ok: bool, queue: seq<Message<Msg>>)
    ensures ok <==> AllAnswer(answers, seqs)
    ensures ok ==> Bodies(queue) == Acks(seqs, h)
  {
    queue := [];
    for i := 0 to |seqs|
      invariant |queue| == i && forall k :: 0 <= k < i ==> answers(seqs[k]) && queue[k].body == Ack(seqs[k], h)
    {
      if !answers(seqs[i]) {
        return false, queue;
      }
      queue := queue + [Message(Ack(seqs[i], h), size(Ack(seqs[i], h)))];
    }
    ok := true;
  }

  /** `RelayAcknowledgements` for the acknowledgements that either chain is owed. */
  method RelayAcknowledgements(n: Net, owedSrc: seq<nat>, owedDst: seq<nat>, srcSlots: nat -> Slot, dstSlots: nat -> Slot,
                               l: Limits, size: Msg -> nat, remote: Remote)
    returns (sent: bool, srcLog: seq<seq<Message<Msg>>>, srcErr: bool, dstLog: seq<seq<Message<Msg>>>, dstErr: bool)
    requires n.src != [] && n.dst != []
    ensures sent <==> Answered(remote, owedSrc, owedDst)
    ensures sent ==> IsSend(n.order, n.src, n.dst, srcSlots, AckMsgs(n.dst, owedSrc), l, size, srcLog, srcErr)
    ensures sent ==> IsSend(n.order, n.dst, n.src, dstSlots, AckMsgs(n.src, owedDst), l, size, dstLog, dstErr)
    ensures !sent ==> srcLog == [] && dstLog == []
  {
    sent, srcLog, srcErr, dstLog, dstErr := false, [], true, [], true;
    if !remote.heights {
      return;
    }
    var ok1, srcMsgs := AckMessages(owedSrc, |n.dst| - 1, size, remote.mine);
    if !ok1 {
      return;
    }
    var ok2, dstMsgs := AckMessages(owedDst, |n.src| - 1, size, remote.theirs);
    if !ok2 || (!remote.headers && (|owedSrc| > 0 || |owedDst| > 0)) {
      return;
    }
    sent := true;
    srcLog, srcErr, dstLog, dstErr :=
      Send(n, srcMsgs, dstMsgs, srcSlots, dstSlots, l, size, AckMsgs(n.dst, owedSrc), AckMsgs(n.src, owedDst));
  }

  // ---- Routing -----------------------------------------------------------------------------

  /** Every pending packet has one message: a receive for the peer, or a timeout for its own chain. */
  lemma Routing(self: seq<End>, peer: seq<End>, mine: seq<nat>, theirs: seq<nat>, s: nat)
    requires self != [] && peer != [] && NoDup(mine) && NoDup(theirs)
    ensures var toSelf, toPeer := PacketQueue(self, peer, mine, theirs, true), PacketQueue(peer, self, theirs, mine, false);
            var hs, hp := |self| - 1, |peer| - 1;
            && (Recv(s, hs) in toPeer <==> s in mine && !Lapsed(Last(self), Tip(peer), s))
            && (Timeout(s, hp) in toSelf <==> s in mine && Lapsed(Last(self), Tip(peer), s))
            && (Recv(s, hp) in toSelf <==> s in theirs && !Lapsed(Last(peer), Tip(self), s))
            && (Timeout(s, hs) in toPeer <==> s in theirs && Lapsed(Last(peer), Tip(self), s))
            && |toSelf| + |toPeer| == |mine| + |theirs| + (if toSelf == [] then 0 else 1) + (if toPeer == [] then 0 else 1)
  {
    var hs, hp := |self| - 1, |peer| - 1;
    LiveDeadMembers(Last(self), Tip(peer), mine);
    LiveDeadMembers(Last(peer), Tip(self), theirs);
    SplitLength(Last(self), Tip(peer), mine);
    SplitLength(Last(peer), Tip(self), theirs);
    QueueMembers(Dead(Last(self), Tip(peer), mine), Live(Last(peer), Tip(self), theirs), hp, true, s);
    QueueMembers(Dead(Last(peer), Tip(self), theirs), Live(Last(self), Tip(peer), mine), hs, false, s);
  }

  lemma {:induction false} SplitLength(sender: End, seen: Moment, q: seq<nat>)
    ensures |Live(sender, seen, q)| + |Dead(sender, seen, q)| == |q|
  {
    if q != [] {
      SplitLength(sender, seen, q[..|q| - 1]);
    }
  }

  lemma QueueMembers(dead: seq<nat>, live: seq<nat>, h: nat, timeoutsFirst: bool, s: nat)
    ensures var t, r := Timeouts(dead, h), Recvs(live, h);
            var body := if timeoutsFirst then t + r else r + t;
            && (Recv(s, h) in WithUpdate(body, h) <==> s in live)
            && (Timeout(s, h) in WithUpdate(body, h) <==> s in dead)
            && |WithUpdate(body, h)| == |dead| + |live| + (if WithUpdate(body, h) == [] then 0 else 1)
  {
    var t, r := Timeouts(dead, h), Recvs(live, h);
    if s in live {
      var i :| 0 <= i < |live| && live[i] == s;
      assert r[i] == Recv(s, h);
    }
    if s in dead {
      var i :| 0 <= i < |dead| && dead[i] == s;
      assert t[i] == Timeout(s, h);
    }
  }
}
