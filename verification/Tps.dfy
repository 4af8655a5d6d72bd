/**
  The transaction counter of deps/evmos/app/tps_counter.go: two 64-bit counters are
  incremented atomically while a reporting loop reads them at every tick and records how
  far each has moved.

  Runs are interleavings of increments with the two loads of a tick; true counts are
  unbounded, the counters wrap.
 */
module Tps {
  import opened Types

  function Wrap(n: nat): uint64 { n % TwoTo64 }

  /** The conversion `int64(x)`. */
  function AsInt64(x: uint64): int { if x < TwoTo63 then x else x - TwoTo64 }

  /** The values handed to the metrics for one counter at one tick: one, or none at all. */
  function RecordValue(latest: uint64, previous: uint64): seq<int> {
    if latest < previous then []
    else
      var n := AsInt64(latest - previous);
      if n < 0 then [] else [n]
  }

  // ---- Runs -----------------------------------------------------------------------------

  datatype Event = IncrementSuccess | IncrementFailure | LoadSuccess | LoadFailure

  /** A true count, and what it was at each completed tick. */
  datatype Track = Track(total: nat, seen: seq<nat>)

  datatype State = State(success: Track, failure: Track, loaded: Option<nat>)

  predicate Enabled(s: State, e: Event) {
    match e
    case LoadSuccess => s.loaded.None?
    case LoadFailure => s.loaded.Some?
    case _ => true
  }

  function Take(s: State, e: Event): State
    requires Enabled(s, e)
  {
    match e
    case IncrementSuccess => s.(success := s.success.(total := s.success.total + 1))
    case IncrementFailure => s.(failure := s.failure.(total := s.failure.total + 1))
    case LoadSuccess => s.(loaded := Some(s.success.total))
    case LoadFailure =>
      State(s.success.(seen := s.success.seen + [s.loaded.value]),
            s.failure.(seen := s.failure.seen + [s.failure.total]), None)
  }

  const Initial := State(Track(0, []), Track(0, []), None)

  /** The reporting loop does its two loads in order; increments come at any time. */
  ghost predicate Schedule(events: seq<Event>)
    decreases |events|, 0
  {
    events == [] ||
    (Schedule(events[..|events| - 1]) && Enabled(Run(events[..|events| - 1]), events[|events| - 1]))
  }

  ghost function Run(events: seq<Event>): State
    requires Schedule(events)
    decreases |events|, 1
  {
    if events == [] then Initial else Take(Run(events[..|events| - 1]), events[|events| - 1])
  }

  // ---- Recorded values --------------------------------------------------------------------

  function Last(seen: seq<nat>): nat { if seen == [] then 0 else seen[|seen| - 1] }

  /** All values recorded for a counter that was read at these true counts. */
  function Values(seen: seq<nat>): seq<int> {
    if seen == [] then []
    else
      var front := seen[..|seen| - 1];
      Values(front) + RecordValue(Wrap(Last(seen)), Wrap(Last(front)))
  }

  class TpsCounter {
    var nSuccessful: uint64
    var nFailed: uint64
    var lastNSuccessful: uint64
    var lastNFailed: uint64
    var latestNSuccessful: uint64
    var recordedSuccess: seq<int>
    var recordedFailure: seq<int>
    ghost var trace: seq<Event>

    /** The 64-bit fields are the wrapped true counts of the run so far. */
    ghost predicate Valid()
      reads this
    {
      Schedule(trace) &&
      var s := Run(trace);
      && nSuccessful == Wrap(s.success.total)
      && nFailed == Wrap(s.failure.total)
      && lastNSuccessful == Wrap(Last(s.success.seen))
      && lastNFailed == Wrap(Last(s.failure.seen))
      && (s.loaded.Some? ==> latestNSuccessful == Wrap(s.loaded.value))
      && recordedSuccess == Values(s.success.seen)
      && recordedFailure == Values(s.failure.seen)
    }

    constructor ()
      ensures Valid() && trace == []
    {
      nSuccessful, nFailed, lastNSuccessful, lastNFailed, latestNSuccessful := 0, 0, 0, 0, 0;
      recordedSuccess, recordedFailure, trace := [], [], [];
    }

    method IncSuccess()
      requires Valid()
      modifies this
      ensures Valid() && trace == old(trace) + [IncrementSuccess]
    {
      Extend(trace, IncrementSuccess);
      WrapNext(Run(trace).success.total);
      nSuccessful := (nSuccessful + 1) % TwoTo64;
      trace := trace + [IncrementSuccess];
    }

    method IncFailure()
      requires Valid()
      modifies this
      ensures Valid() && trace == old(trace) + [IncrementFailure]
    {
      Extend(trace, IncrementFailure);
      WrapNext(Run(trace).failure.total);
      nFailed := (nFailed + 1) % TwoTo64;
      trace := trace + [IncrementFailure];
    }

    /** The first half of a tick. */
    method BeginTick()
      requires Valid() && Enabled(Run(trace), LoadSuccess)
      modifies this
      ensures Valid() && trace == old(trace) + [LoadSuccess]
    {
      Extend(trace, LoadSuccess);
      latestNSuccessful := nSuccessful;
      trace := trace + [LoadSuccess];
    }

    /** The second half: load the failures, record both and remember what was seen. */
    method EndTick()
      requires Valid() && Enabled(Run(trace), LoadFailure)
      modifies this
      ensures Valid() && trace == old(trace) + [LoadFailure]
    {
      Extend(trace, LoadFailure);
      ValuesSnoc(Run(trace).success.seen, Run(trace).loaded.value);
      ValuesSnoc(Run(trace).failure.seen, Run(trace).failure.total);
      var latestNFailed := nFailed;
      recordedSuccess := recordedSuccess + RecordValue(latestNSuccessful, lastNSuccessful);
      recordedFailure := recordedFailure + RecordValue(latestNFailed, lastNFailed);
      lastNFailed := latestNFailed;
      lastNSuccessful := latestNSuccessful;
      trace := trace + [LoadFailure];
    }
  }

  lemma Extend(trace: seq<Event>, e: Event)
    requires Schedule(trace) && Enabled(Run(trace), e)
    ensures Schedule(trace + [e]) && Run(trace + [e]) == Take(Run(trace), e)
  {
  }

  lemma WrapNext(n: nat)
    ensures Wrap(n + 1) == (Wrap(n) + 1) % TwoTo64
  {
  }

  lemma ValuesSnoc(seen: seq<nat>, n: nat)
    ensures Values(seen + [n]) == Values(seen) + RecordValue(Wrap(n), Wrap(Last(seen)))
  {
  }

  // ---- What is recorded ----------------------------------------------------------------------

  function Sum(values: seq<int>): int {
    if values == [] then 0 else Sum(values[..|values| - 1]) + values[|values| - 1]
  }

  ghost predicate Rising(seen: seq<nat>) {
    forall i, j :: 0 <= i < j < |seen| ==> seen[i] <= seen[j]
  }

  /** Between these true counts the counter did not wrap, and moved by less than 2^63. */
  predicate Faithful(from: nat, to: nat) {
    from / TwoTo64 == to / TwoTo64 && to - from < TwoTo63
  }

  lemma RecordBounds(from: nat, to: nat)
    requires from <= to
    ensures 0 <= Sum(RecordValue(Wrap(to), Wrap(from))) <= to - from
    ensures Sum(RecordValue(Wrap(to), Wrap(from))) == to - from <==> Faithful(from, to)
    ensures Faithful(from, to) ==> RecordValue(Wrap(to), Wrap(from)) == [to - from]
  {
  }

  lemma OneValue(latest: uint64, previous: uint64)
    ensures Sum(RecordValue(latest, previous)) == if previous <= latest < previous + TwoTo63 then latest - previous else 0
  {
  }

  lemma {:induction false} SumConcat(a: seq<int>, b: seq<int>)
    ensures Sum(a + b) == Sum(a) + Sum(b)
  {
    if b == [] {
      assert a + b == a;
    } else {
      assert (a + b)[..|a + b| - 1] == a + b[..|b| - 1];
      SumConcat(a, b[..|b| - 1]);
    }
  }

  /** Every interval between ticks is one the counter reports faithfully. */
  ghost predicate AllFaithful(seen: seq<nat>) {
    forall i :: 0 <= i < |seen| ==> Faithful(Last(seen[..i]), seen[i])
  }

  lemma AllFaithfulSnoc(seen: seq<nat>)
    requires seen != []
    ensures var front := seen[..|seen| - 1];
            AllFaithful(seen) <==> AllFaithful(front) && Faithful(Last(front), Last(seen))
  {
    var n := |seen| - 1;
    var front := seen[..n];
    forall i | 0 <= i < n ensures front[..i] == seen[..i] && front[i] == seen[i] {
    }
    if AllFaithful(front) && Faithful(Last(front), Last(seen)) {
      forall i | 0 <= i < |seen| ensures Faithful(Last(seen[..i]), seen[i]) {
        assert i < n ==> Faithful(Last(front[..i]), front[i]);
      }
    }
    if AllFaithful(seen) {
      assert Faithful(Last(seen[..n]), seen[n]);
      forall i | 0 <= i < n ensures Faithful(Last(front[..i]), front[i]) {
        assert Faithful(Last(seen[..i]), seen[i]);
      }
    }
  }

  /** The recorded values never add up to more than the count at the last tick, and to exactly that iff all intervals are faithful. */
  lemma {:induction false} RecordedSum(seen: seq<nat>)
    requires Rising(seen)
    ensures Sum(Values(seen)) <= Last(seen)
    ensures Sum(Values(seen)) == Last(seen) <==> AllFaithful(seen)
  {
    if seen != [] {
      var front := seen[..|seen| - 1];
      RecordedSum(front);
      RecordBounds(Last(front), Last(seen));
      SumConcat(Values(front), RecordValue(Wrap(Last(seen)), Wrap(Last(front))));
      AllFaithfulSnoc(seen);
    }
  }

  // ---- Every run --------------------------------------------------------------------------------

  ghost predicate Tracked(t: Track, upTo: nat) {
    Rising(t.seen) && Last(t.seen) <= upTo <= t.total
  }

  /** What is seen follows the counts in order, and a load in flight lies between the last read and now. */
  ghost predicate Ordered(s: State) {
    && Tracked(s.success, if s.loaded.Some? then s.loaded.value else s.success.total)
    && Tracked(s.failure, s.failure.total)
  }

  lemma TakeKeepsOrder(s: State, e: Event)
    requires Ordered(s) && Enabled(s, e)
    ensures Ordered(Take(s, e))
  {
  }

  lemma {:induction false} RunIsOrdered(events: seq<Event>)
    requires Schedule(events)
    ensures Ordered(Run(events))
    decreases |events|
  {
    if events != [] {
      RunIsOrdered(events[..|events| - 1]);
      TakeKeepsOrder(Run(events[..|events| - 1]), events[|events| - 1]);
    }
  }

  function Count(events: seq<Event>, e: Event): nat {
    if events == [] then 0
    else Count(events[..|events| - 1], e) + if events[|events| - 1] == e then 1 else 0
  }

  lemma {:induction false} TotalsAreCounts(events: seq<Event>)
    requires Schedule(events)
    ensures Run(events).success.total == Count(events, IncrementSuccess)
    ensures Run(events).failure.total == Count(events, IncrementFailure)
    decreases |events|
  {
    if events != [] {
      TotalsAreCounts(events[..|events| - 1]);
    }
  }

  /** What one counter reports over a run with this many increments. */
  ghost predicate Sound(recorded: seq<int>, seen: seq<nat>, increments: nat) {
    && Sum(recorded) <= Last(seen) <= increments
    && (Sum(recorded) == Last(seen) <==> AllFaithful(seen))
  }

  /**
    Over every interleaving, what is recorded never exceeds the true increments, and equals the
    counts read at the last tick exactly when no interval wrapped or reached 2^63.
   */
  lemma EveryRunIsSound(events: seq<Event>)
    requires Schedule(events)
    ensures var s := Run(events);
            && Sound(Values(s.success.seen), s.success.seen, Count(events, IncrementSuccess))
            && Sound(Values(s.failure.seen), s.failure.seen, Count(events, IncrementFailure))
  {
    RunIsOrdered(events);
    TotalsAreCounts(events);
    RecordedSum(Run(events).success.seen);
    RecordedSum(Run(events).failure.seen);
  }

  // ---- Every list of counts occurs -----------------------------------------------------------------

  function Increments(k: nat): seq<Event> { seq(k, (i: int) => IncrementSuccess) }

  /** Transactions come in until each count is reached, and then a tick reads it. */
  function Story(seen: seq<nat>): seq<Event> {
    if seen == [] then []
    else
      var front := seen[..|seen| - 1];
      var k := if Last(seen) >= Last(front) then Last(seen) - Last(front) else 0;
      Story(front) + Increments(k) + [LoadSuccess] + [LoadFailure]
  }

  ghost predicate Reaches(events: seq<Event>, s: State) {
    Schedule(events) && Run(events) == s
  }

  lemma OneMore(events: seq<Event>, s: State, e: Event, longer: seq<Event>)
    requires Reaches(events, s) && Enabled(s, e) && longer == events + [e]
    ensures Reaches(longer, Take(s, e))
  {
    Extend(events, e);
  }

  function Raised(s: State, k: nat): State {
    s.(success := s.success.(total := s.success.total + k))
  }

  lemma {:induction false} Burst(events: seq<Event>, s: State, k: nat)
    requires Reaches(events, s)
    ensures Reaches(events + Increments(k), Raised(s, k))
  {
    if k == 0 {
      assert events + Increments(k) == events;
    } else {
      Burst(events, s, k - 1);
      assert events + Increments(k) == (events + Increments(k - 1)) + [IncrementSuccess];
      OneMore(events + Increments(k - 1), Raised(s, k - 1), IncrementSuccess, events + Increments(k));
    }
  }

  /** A tick right after the last transaction. */
  function Ticked(s: State): State {
    State(s.success.(seen := s.success.seen + [s.success.total]), s.failure.(seen := s.failure.seen + [s.failure.total]), None)
  }

  lemma Tick(events: seq<Event>, s: State)
    requires Reaches(events, s) && s.loaded.None?
    ensures Reaches(events + [LoadSuccess] + [LoadFailure], Ticked(s))
  {
    var one := events + [LoadSuccess];
    OneMore(events, s, LoadSuccess, one);
    OneMore(one, s.(loaded := Some(s.success.total)), LoadFailure, one + [LoadFailure]);
  }

  lemma StoryStep(front: seq<nat>, seen: seq<nat>)
    requires seen != [] && front == seen[..|seen| - 1] && Last(seen) >= Last(front)
    ensures Story(seen) == Story(front) + Increments(Last(seen) - Last(front)) + [LoadSuccess] + [LoadFailure]
  {
  }

  /** Any rising list is what some run of the counter reads. */
  lemma {:induction false} Realised(seen: seq<nat>) returns (s: State)
    requires Rising(seen)
    ensures Reaches(Story(seen), s) && s.success == Track(Last(seen), seen) && s.loaded.None?
  {
    if seen == [] {
      s := Initial;
    } else {
      var front := seen[..|seen| - 1];
      var before := Realised(front);
      var k := Last(seen) - Last(front);
      StoryStep(front, seen);
      Burst(Story(front), before, k);
      Tick(Story(front) + Increments(k), Raised(before, k));
      s := Ticked(Raised(before, k));
      assert front + [Last(seen)] == seen;
    }
  }

  /** The increments of a run, and what is recorded of them. */
  ghost predicate Records(events: seq<Event>, increments: nat, recorded: int) {
    && Schedule(events) && Count(events, IncrementSuccess) == increments
    && Sum(Values(Run(events).success.seen)) == recorded
  }

  /** A counter that is read at these counts. */
  lemma StoryRecords(seen: seq<nat>, increments: nat, recorded: int)
    requires Rising(seen) && increments == Last(seen) && recorded == Sum(Values(seen))
    ensures Records(Story(seen), increments, recorded)
  {
    var s := Realised(seen);
    TotalsAreCounts(Story(seen));
  }

  /** Runs in which an interval of 2^63 or more, or one across the wrap, is lost as a whole. */
  lemma WrapLosesInterval(n: nat, m: nat)
    requires n < TwoTo63 && TwoTo64 <= m < TwoTo64 + n
    ensures Records(Story([n + TwoTo63]), n + TwoTo63, 0)
    ensures Records(Story([n, m]), m, n)
  {
    OneCount(n + TwoTo63);
    OneValue(n + TwoTo63, 0);
    StoryRecords([n + TwoTo63], n + TwoTo63, 0);
    TwoCounts(n, m);
    StoryRecords([n, m], m, n);
  }

  lemma OneCount(n: nat)
    requires n < TwoTo64
    ensures Values([n]) == RecordValue(n, 0)
  {
    ValuesSnoc([], n);
    assert [n] == [] + [n];
  }

  lemma TwoCounts(n: nat, m: nat)
    requires n < TwoTo63 && TwoTo64 <= m < TwoTo64 + n
    ensures Sum(Values([n, m])) == n
  {
    OneCount(n);
    OneValue(n, 0);
    ValuesSnoc([n], m);
    WrapOnce(m);
    assert RecordValue(Wrap(m), Wrap(n)) == [];
    assert [n, m] == [n] + [m];
  }

  lemma WrapOnce(m: nat)
    requires TwoTo64 <= m < 2 * TwoTo64
    ensures Wrap(m) == m - TwoTo64
  {
  }
}
