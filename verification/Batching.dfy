/**
  The size- and count-limited sender of the legacy relayer
  (deps/relayer/relayer/relayMsgs.go): `IsMaxTx` and `send`.

  A batch log is judged by predicates that never mention the loop: it
  concatenates to the queue, every batch is legal, and it is maximal.  Any
  legal, maximal log is then shown to be as short as any legal split.
 */
module Batching {
  import opened Types

  /** A relayer message: its content and the length of its encoding (`MsgBytes`). */
  datatype Message<T> = Message(body: T, bytes: nat)

  /** A zero limit is ignored. */
  datatype Limits = Limits(maxTxSize: nat, maxMsgLength: nat) {
    predicate IsMaxTx(msgLen: nat, txSize: nat) {
      || (maxMsgLength != 0 && msgLen > maxMsgLength)
      || (maxTxSize != 0 && txSize > maxTxSize)
    }
  }

  function Bytes<T>(ms: seq<Message<T>>): nat {
    if ms == [] then 0 else Bytes(ms[..|ms| - 1]) + ms[|ms| - 1].bytes
  }

  function Flatten<T>(batches: seq<seq<T>>): seq<T> {
    if batches == [] then [] else Flatten(batches[..|batches| - 1]) + batches[|batches| - 1]
  }

  /** At most so many messages and so many bytes. */
  predicate Fits<T>(l: Limits, batch: seq<Message<T>>) {
    && (l.maxMsgLength != 0 ==> |batch| <= l.maxMsgLength)
    && (l.maxTxSize != 0 ==> Bytes(batch) <= l.maxTxSize)
  }

  /** A message that exceeds the size limit all by itself. */
  predicate Oversized<T>(l: Limits, m: Message<T>) {
    l.maxTxSize != 0 && m.bytes > l.maxTxSize
  }

  /** A batch within both limits, or one message that nothing can make fit. */
  predicate Legal<T>(l: Limits, batch: seq<Message<T>>) {
    batch != [] && (Fits(l, batch) || (|batch| == 1 && Oversized(l, batch[0])))
  }

  ghost predicate AllLegal<T>(l: Limits, batches: seq<seq<Message<T>>>) {
    forall k :: 0 <= k < |batches| ==> Legal(l, batches[k])
  }

  /** No batch could have taken the first message of the batch after it. */
  ghost predicate Maximal<T>(l: Limits, batches: seq<seq<Message<T>>>)
    requires AllLegal(l, batches)
  {
    forall k, n :: 0 <= k < n < |batches| && n == k + 1 ==> !Fits(l, batches[k] + [batches[n][0]])
  }

  // ---- Sums and concatenations -------------------------------------------

  lemma {:induction false} BytesConcat<T>(a: seq<Message<T>>, b: seq<Message<T>>)
    ensures Bytes(a + b) == Bytes(a) + Bytes(b)
  {
    if b == [] {
      assert a + b == a;
    } else {
      BytesConcat(a, b[..|b| - 1]);
      assert (a + b)[..|a + b| - 1] == a + b[..|b| - 1];
    }
  }

  lemma {:induction false} FlattenConcat<T>(a: seq<seq<T>>, b: seq<seq<T>>)
    ensures Flatten(a + b) == Flatten(a) + Flatten(b)
  {
    if b == [] {
      assert a + b == a;
    } else {
      var front, last := b[..|b| - 1], b[|b| - 1];
      FlattenConcat(a, front);
      assert (a + b)[..|a + b| - 1] == a + front;
      Associate(Flatten(a), Flatten(front), last);
    }
  }

  lemma FlattenOne<T>(b: seq<T>)
    ensures Flatten([b]) == b
  {
  }

  lemma FlattenFront<T>(batches: seq<seq<T>>)
    requires batches != []
    ensures Flatten(batches) == batches[0] + Flatten(batches[1..])
  {
    FlattenConcat([batches[0]], batches[1..]);
    FlattenOne(batches[0]);
    assert batches == [batches[0]] + batches[1..];
  }

  /** Every block inside a batch that fits also fits. */
  lemma BlockFits<T>(l: Limits, batch: seq<Message<T>>, lo: nat, hi: nat)
    requires lo <= hi <= |batch| && Fits(l, batch)
    ensures Fits(l, batch[lo..hi])
  {
    BytesConcat(batch[..lo], batch[lo..hi]);
    assert batch[..lo] + batch[lo..hi] == batch[..hi];
    BytesConcat(batch[..hi], batch[hi..]);
    assert batch[..hi] + batch[hi..] == batch;
  }

  // ---- Greedy batching is optimal ------------------------------------------

  ghost predicate SuffixOf<T(!new)>(b: seq<T>, p: seq<T>) {
    |b| <= |p| && p[|p| - |b|..] == b
  }

  ghost predicate BlockAt<T(!new)>(p: seq<T>, start: nat, b: seq<T>) {
    start + |b| <= |p| && p[start..start + |b|] == b
  }

  /** If `b0 + C` ends `p0 + R`, either `C` ends `R` or `p0` holds `b0` and the first element of `C`. */
  lemma CutPositions<T(!new)>(p0: seq<T>, R: seq<T>, b0: seq<T>, C: seq<T>) returns (start: nat)
    requires SuffixOf(b0 + C, p0 + R)
    ensures |C| <= |R| ==> SuffixOf(C, R)
    ensures |C| > |R| ==> BlockAt(p0, start, b0 + [C[0]])
  {
    var P := p0 + R;
    start := |P| - |b0 + C|;
    forall i | 0 <= i < |b0 + C|
      ensures P[start + i] == (b0 + C)[i]
    {
      assert P[start..][i] == P[start + i];
    }
    if |C| <= |R| {
      forall i | 0 <= i < |C|
        ensures R[|R| - |C| + i] == C[i]
      {
        assert P[start + |b0| + i] == (b0 + C)[|b0| + i];
      }
      assert R[|R| - |C|..] == C;
    } else {
      forall i | 0 <= i < |b0| + 1
        ensures p0[start + i] == (b0 + [C[0]])[i]
      {
        assert P[start + i] == (b0 + C)[i];
      }
      assert p0[start..start + |b0| + 1] == b0 + [C[0]];
    }
  }

  /** A legal batch that holds two messages in a row of another batch is within the limits. */
  lemma LegalBlockFits<T(!new)>(l: Limits, p0: seq<Message<T>>, b0: seq<Message<T>>, m: Message<T>, start: nat)
    requires Legal(l, p0) && b0 != [] && BlockAt(p0, start, b0 + [m])
    ensures Fits(l, b0 + [m])
  {
    BlockFits(l, p0, start, start + |b0| + 1);
  }

  /** In a maximal split the first batch has no room for the message that follows it. */
  lemma NoRoomForNext<T>(l: Limits, bs: seq<seq<Message<T>>>)
    requires AllLegal(l, bs) && Maximal(l, bs) && bs != [] && Flatten(bs[1..]) != []
    ensures !Fits(l, bs[0] + [Flatten(bs[1..])[0]])
  {
    assert bs[1..] != [];
    FlattenFront(bs[1..]);
    assert Legal(l, bs[1]) && Flatten(bs[1..])[0] == bs[1][0];
  }

  /** One step of the comparison: the legal split never ends its first batch past the maximal one. */
  lemma FirstCutAhead<T(!new)>(l: Limits, bs: seq<seq<Message<T>>>, p: seq<seq<Message<T>>>)
    requires AllLegal(l, bs) && Maximal(l, bs) && AllLegal(l, p)
    requires bs != [] && p != [] && SuffixOf(Flatten(bs), Flatten(p))
    ensures SuffixOf(Flatten(bs[1..]), Flatten(p[1..]))
  {
    FlattenFront(bs);
    FlattenFront(p);
    var R, C := Flatten(p[1..]), Flatten(bs[1..]);
    var start := CutPositions(p[0], R, bs[0], C);
    if |C| > |R| {
      assert Legal(l, p[0]) && Legal(l, bs[0]);
      LegalBlockFits(l, p[0], bs[0], C[0], start);
      NoRoomForNext(l, bs);
      assert false;
    }
  }

  lemma {:induction false} MaximalIsShortest<T(!new)>(l: Limits, bs: seq<seq<Message<T>>>, p: seq<seq<Message<T>>>)
    requires AllLegal(l, bs) && Maximal(l, bs) && AllLegal(l, p)
    requires SuffixOf(Flatten(bs), Flatten(p))
    ensures |bs| <= |p|
    decreases |p|
  {
    if bs != [] {
      FlattenFront(bs);
      assert Legal(l, bs[0]);
      assert p != [];
      FirstCutAhead(l, bs, p);
      MaximalIsShortest(l, bs[1..], p[1..]);
    }
  }

  // ---- The sending loop --------------------------------------------------------

  /** What `SendMessages` reports for one batch; a nil error is an empty list. */
  datatype Response = Response(success: bool, errors: seq<string>)

  /** How many batches of the log were reported a success; the answer to a call may depend on all calls so far. */
  function Successes<T(!new)>(respond: seq<seq<Message<T>>> -> Response, log: seq<seq<Message<T>>>): nat {
    if log == [] then 0
    else Successes(respond, log[..|log| - 1]) + (if respond(log).success then 1 else 0)
  }

  function Errors<T(!new)>(respond: seq<seq<Message<T>>> -> Response, log: seq<seq<Message<T>>>): seq<string> {
    if log == [] then [] else Errors(respond, log[..|log| - 1]) + respond(log).errors
  }

  /** The empty batch that is sent first exactly when the first message alone is oversized. */
  function Lead<T>(l: Limits, msgs: seq<Message<T>>): seq<seq<Message<T>>> {
    if msgs != [] && Oversized(l, msgs[0]) then [[]] else []
  }

  /** `log` is the lead followed by a legal, maximal split of the queue. */
  ghost predicate GreedyLog<T>(l: Limits, msgs: seq<Message<T>>, log: seq<seq<Message<T>>>) {
    var k := |Lead(l, msgs)|;
    && k <= |log| && log[..k] == Lead(l, msgs)
    && Flatten(log[k..]) == msgs
    && AllLegal(l, log[k..]) && Maximal(l, log[k..])
  }

  /** What the loop has cut so far (`done`) and the batch it is filling (`cur`). */
  ghost predicate Filling<T>(l: Limits, done: seq<seq<Message<T>>>, cur: seq<Message<T>>) {
    AllLegal(l, done + [cur]) && Maximal(l, done + [cur])
  }

  lemma KeepFilling<T>(l: Limits, done: seq<seq<Message<T>>>, cur: seq<Message<T>>, m: Message<T>)
    requires Filling(l, done, cur) && Fits(l, cur + [m])
    ensures Filling(l, done, cur + [m])
  {
    var a, b := done + [cur], done + [cur + [m]];
    assert Legal(l, a[|done|]);
    assert b[|done|] == cur + [m];
    forall k | 0 <= k < |done|
      ensures Legal(l, b[k])
    {
      assert a[k] == b[k];
    }
    forall k, n | 0 <= k < n < |b| && n == k + 1
      ensures !Fits(l, b[k] + [b[n][0]])
    {
      assert a[k] == b[k] && a[n][0] == b[n][0];
      assert !Fits(l, a[k] + [a[n][0]]);
    }
  }

  /** The state of the loop before message `i > 0`: `done` are the cut batches after the lead. */
  ghost predicate Cutting<T>(l: Limits, msgs: seq<Message<T>>, i: nat, batchStart: nat, txSize: nat,
                             done: seq<seq<Message<T>>>)
  {
    && batchStart < i <= |msgs|
    && txSize == Bytes(msgs[batchStart..i])
    && Flatten(done) == msgs[..batchStart]
    && Filling(l, done, msgs[batchStart..i])
  }

  lemma FirstMessage<T>(l: Limits, msgs: seq<Message<T>>)
    requires msgs != []
    ensures l.IsMaxTx(1, msgs[0].bytes) <==> Oversized(l, msgs[0])
    ensures Cutting(l, msgs, 1, 0, msgs[0].bytes, [])
  {
  }

  lemma TakeMessage<T>(l: Limits, msgs: seq<Message<T>>, i: nat, batchStart: nat, txSize: nat, done: seq<seq<Message<T>>>)
    requires Cutting(l, msgs, i, batchStart, txSize, done) && i < |msgs|
    requires !l.IsMaxTx(i + 1 - batchStart, txSize + msgs[i].bytes)
    ensures Cutting(l, msgs, i + 1, batchStart, txSize + msgs[i].bytes, done)
  {
    var cur, next := msgs[batchStart..i], msgs[batchStart..i + 1];
    assert next == cur + [msgs[i]] && next[..|next| - 1] == cur;
    KeepFilling(l, done, cur, msgs[i]);
  }

  lemma CutBatch<T>(l: Limits, msgs: seq<Message<T>>, i: nat, batchStart: nat, txSize: nat, done: seq<seq<Message<T>>>)
    requires Cutting(l, msgs, i, batchStart, txSize, done) && i < |msgs|
    requires l.IsMaxTx(i + 1 - batchStart, txSize + msgs[i].bytes)
    ensures Cutting(l, msgs, i + 1, i, msgs[i].bytes, done + [msgs[batchStart..i]])
  {
  }

  lemma CloseBatch<T>(msgs: seq<T>, done: seq<seq<T>>, batchStart: nat, i: nat)
    requires batchStart <= i <= |msgs| && Flatten(done) == msgs[..batchStart]
    ensures Flatten(done + [msgs[batchStart..i]]) == msgs[..i]
  {
  }

  lemma LastBatch<T>(l: Limits, msgs: seq<Message<T>>, batchStart: nat, txSize: nat, done: seq<seq<Message<T>>>)
    requires Cutting(l, msgs, |msgs|, batchStart, txSize, done)
    ensures GreedyLog(l, msgs, Lead(l, msgs) + done + [msgs[batchStart..]])
  {
    var k := |Lead(l, msgs)|;
    var cur := msgs[batchStart..];
    assert cur == msgs[batchStart..|msgs|] && msgs == msgs[..|msgs|];
    CloseBatch(msgs, done, batchStart, |msgs|);
    var full := Lead(l, msgs) + done + [cur];
    assert full[k..] == done + [cur] && full[..k] == Lead(l, msgs);
  }

  /** Hands one batch over and books its outcome. */
  method SendBatch<T(!new)>(respond: seq<seq<Message<T>>> -> Response, log: seq<seq<Message<T>>>, successes: nat,
                            errors: seq<string>, batch: seq<Message<T>>)
    returns (log': seq<seq<Message<T>>>, successes': nat, errors': seq<string>)
    requires successes == Successes(respond, log) && errors == Errors(respond, log)
    ensures log' == log + [batch]
    ensures successes' == Successes(respond, log') && errors' == Errors(respond, log')
  {
    log' := log + [batch];
    assert log'[..|log|] == log;
    var response := respond(log');
    successes', errors' := successes, errors + response.errors;
    if response.success {
      successes' := successes' + 1;
    }
  }

  /**
    `send`: the messages go out in order, cut greedily; a failed batch is
    recorded and the next one is sent all the same.  `log` holds the batches in
    call order, and `respond(log)` is what the last call of such a log reports.
   */
  method SendQueue<T(!new)>(l: Limits, msgs: seq<Message<T>>, respond: seq<seq<Message<T>>> -> Response)
    returns (log: seq<seq<Message<T>>>, successes: nat, errors: seq<string>)
    ensures GreedyLog(l, msgs, log)
    ensures successes == Successes(respond, log)
    ensures errors == Errors(respond, log)
  {
    log, successes, errors := [], 0, [];
    var txSize, batchStart := 0, 0;
    ghost var done: seq<seq<Message<T>>> := [];
    for i := 0 to |msgs|
      invariant Sending(l, msgs, i, batchStart, txSize, log, done)
      invariant successes == Successes(respond, log) && errors == Errors(respond, log)
    {
      var len := msgs[i].bytes;
      if !l.IsMaxTx(i + 1 - batchStart, txSize + len) {
        KeepSending(l, msgs, i, batchStart, txSize, log, done);
        txSize := txSize + len;
        continue;
      }
      var batch := msgs[batchStart..i];
      CutSending(l, msgs, i, batchStart, txSize, log, done);
      log, successes, errors := SendBatch(respond, log, successes, errors, batch);
      done := if i == 0 then [] else done + [batch];
      batchStart := i;
      txSize := len;
    }
    EndSending(l, msgs, batchStart, txSize, log, done);
    if batchStart < |msgs| {
      log, successes, errors := SendBatch(respond, log, successes, errors, msgs[batchStart..]);
    }
  }

  /** The loop before message `i`: what has been sent is the lead and the batches `done`. */
  ghost predicate Sending<T>(l: Limits, msgs: seq<Message<T>>, i: nat, batchStart: nat, txSize: nat,
                             log: seq<seq<Message<T>>>, done: seq<seq<Message<T>>>)
  {
    && batchStart <= i <= |msgs|
    && (if i == 0 then log == [] && done == [] && txSize == 0
        else log == Lead(l, msgs) + done && Cutting(l, msgs, i, batchStart, txSize, done))
  }

  lemma KeepSending<T>(l: Limits, msgs: seq<Message<T>>, i: nat, batchStart: nat, txSize: nat,
                       log: seq<seq<Message<T>>>, done: seq<seq<Message<T>>>)
    requires Sending(l, msgs, i, batchStart, txSize, log, done) && i < |msgs|
    requires !l.IsMaxTx(i + 1 - batchStart, txSize + msgs[i].bytes)
    ensures Sending(l, msgs, i + 1, batchStart, txSize + msgs[i].bytes, log, done)
  {
    if i == 0 {
      FirstMessage(l, msgs);
    } else {
      TakeMessage(l, msgs, i, batchStart, txSize, done);
    }
  }

  lemma CutSending<T>(l: Limits, msgs: seq<Message<T>>, i: nat, batchStart: nat, txSize: nat,
                      log: seq<seq<Message<T>>>, done: seq<seq<Message<T>>>)
    requires Sending(l, msgs, i, batchStart, txSize, log, done) && i < |msgs|
    requires l.IsMaxTx(i + 1 - batchStart, txSize + msgs[i].bytes)
    ensures var batch := msgs[batchStart..i];
            Sending(l, msgs, i + 1, i, msgs[i].bytes, log + [batch], if i == 0 then [] else done + [batch])
  {
    if i == 0 {
      FirstMessage(l, msgs);
      assert msgs[0..0] == [] && [] + [[]] == Lead(l, msgs) + [];
    } else {
      CutBatch(l, msgs, i, batchStart, txSize, done);
    }
  }

  lemma EndSending<T>(l: Limits, msgs: seq<Message<T>>, batchStart: nat, txSize: nat,
                      log: seq<seq<Message<T>>>, done: seq<seq<Message<T>>>)
    requires Sending(l, msgs, |msgs|, batchStart, txSize, log, done)
    ensures GreedyLog(l, msgs, if batchStart < |msgs| then log + [msgs[batchStart..]] else log)
  {
    if msgs != [] {
      LastBatch(l, msgs, batchStart, txSize, done);
    }
  }

  /** No legal split of the queue is shorter; an oversized first message costs one empty batch more. */
  lemma SendIsOptimal<T(!new)>(l: Limits, msgs: seq<Message<T>>, log: seq<seq<Message<T>>>, p: seq<seq<Message<T>>>)
    requires GreedyLog(l, msgs, log)
    requires AllLegal(l, p) && Flatten(p) == msgs
    ensures |log| <= |p| + |Lead(l, msgs)|
  {
    MaximalIsShortest(l, log[|Lead(l, msgs)|..], p);
  }

  lemma LeadIsEmpty<T>(l: Limits, msgs: seq<Message<T>>)
    ensures Flatten(Lead(l, msgs)) == []
    ensures forall n :: 0 <= n < |Lead(l, msgs)| ==> Lead(l, msgs)[n] == []
  {
  }

  /** The whole log concatenates to the queue: nothing is lost, duplicated or reordered. */
  lemma LogIsQueue<T>(l: Limits, msgs: seq<Message<T>>, log: seq<seq<Message<T>>>)
    requires GreedyLog(l, msgs, log)
    ensures Flatten(log) == msgs
  {
    var k := |Lead(l, msgs)|;
    FlattenConcat(log[..k], log[k..]);
    LeadIsEmpty(l, msgs);
    assert log == log[..k] + log[k..];
  }

  /** A batch is empty only first, exactly when the first message alone is oversized; all others are legal. */
  lemma OnlyLeadIsEmpty<T>(l: Limits, msgs: seq<Message<T>>, log: seq<seq<Message<T>>>, n: nat)
    requires GreedyLog(l, msgs, log) && n < |log|
    ensures log[n] == [] <==> n == 0 && msgs != [] && Oversized(l, msgs[0])
    ensures log[n] != [] ==> Legal(l, log[n])
  {
  }

  /** No batch holds more messages than allowed, and none more bytes but a single oversized message. */
  lemma BatchLimits<T>(l: Limits, msgs: seq<Message<T>>, log: seq<seq<Message<T>>>, n: nat)
    requires GreedyLog(l, msgs, log) && n < |log|
    ensures l.maxMsgLength != 0 ==> |log[n]| <= l.maxMsgLength
    ensures l.maxTxSize != 0 && Bytes(log[n]) > l.maxTxSize ==> |log[n]| == 1 && log[n][0].bytes > l.maxTxSize
  {
    OnlyLeadIsEmpty(l, msgs, log, n);
  }

  /** A batch is cut only where the next message would exceed one of the two limits. */
  lemma CutWhenFull<T>(l: Limits, msgs: seq<Message<T>>, log: seq<seq<Message<T>>>, n: nat)
    requires GreedyLog(l, msgs, log) && n + 1 < |log| && log[n] != []
    ensures log[n + 1] != []
    ensures || (l.maxMsgLength != 0 && |log[n]| + 1 > l.maxMsgLength)
            || (l.maxTxSize != 0 && Bytes(log[n]) + log[n + 1][0].bytes > l.maxTxSize)
  {
    var k := |Lead(l, msgs)|;
    var rest, i := log[k..], n - k;
    OnlyLeadIsEmpty(l, msgs, log, n);
    OnlyLeadIsEmpty(l, msgs, log, n + 1);
    LeadIsEmpty(l, msgs);
    assert log[n] == rest[i] && log[n + 1] == rest[i + 1];
    assert !Fits(l, rest[i] + [rest[i + 1][0]]);
    BytesConcat(rest[i], [rest[i + 1][0]]);
    BytesOne(rest[i + 1][0]);
  }

  lemma BytesOne<T>(m: Message<T>)
    ensures Bytes([m]) == m.bytes
  {
  }

  /** The errors of one call are all booked, behind those of the calls before it. */
  lemma {:induction false} ErrorsOfCall<T(!new)>(respond: seq<seq<Message<T>>> -> Response, log: seq<seq<Message<T>>>, n: nat)
    returns (after: seq<string>)
    requires n < |log|
    ensures Errors(respond, log) == Errors(respond, log[..n]) + respond(log[..n + 1]).errors + after
  {
    var front := log[..|log| - 1];
    if n == |front| {
      assert log[..n + 1] == log;
      after := [];
    } else {
      var rest := ErrorsOfCall(respond, front, n);
      assert front[..n] == log[..n] && front[..n + 1] == log[..n + 1];
      Associate(Errors(respond, log[..n]) + respond(log[..n + 1]).errors, rest, respond(log).errors);
      after := rest + respond(log).errors;
    }
  }
}
