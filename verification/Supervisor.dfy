/**
  The supervisor loop of the legacy relayer, its workers, the token channel, the
  wait group and the error channel (deps/relayer/relayer/strategies.go), as a
  transition system over every interleaving.
 */
module Supervisor {

  // ---- Which channels are relayed ----------------------------------------------------

  datatype ChannelState = OPEN | NOT_OPEN

  datatype Channel = Channel(id: string, state: ChannelState)

  datatype Rule = AllowList | DenyList | NoRule

  predicate Passes(rule: Rule, list: seq<string>, c: Channel) {
    match rule
    case AllowList => c.id in list
    case DenyList => c.id !in list
    case NoRule => true
  }

  /** `applyChannelFilterRule`: keeps, in order, exactly the channels the rule passes. */
  method ApplyChannelFilterRule(rule: Rule, list: seq<string>, channels: seq<Channel>) returns (kept: seq<Channel>, ghost at: seq<nat>)
    ensures |at| == |kept| <= |channels|
    ensures forall k :: 0 <= k < |kept| ==> at[k] < |channels| && kept[k] == channels[at[k]] && Passes(rule, list, kept[k])
    ensures forall j, k :: 0 <= j < k < |at| ==> at[j] < at[k]
    ensures forall i :: 0 <= i < |channels| && Passes(rule, list, channels[i]) ==> i in at
  {
    kept, at := [], [];
    for i := 0 to |channels|
      invariant |at| == |kept| <= i
      invariant forall k :: 0 <= k < |kept| ==> at[k] < i && kept[k] == channels[at[k]] && Passes(rule, list, kept[k])
      invariant forall j, k :: 0 <= j < k < |at| ==> at[j] < at[k]
      invariant forall k :: 0 <= k < i && Passes(rule, list, channels[k]) ==> k in at
    {
      if Passes(rule, list, channels[i]) {
        kept, at := kept + [channels[i]], at + [i];
      }
    }
  }

  /** An inactive entry for every open channel of the list, and nothing else. */
  ghost predicate OpenEntries(channels: seq<Channel>, open: map<string, bool>) {
    && (forall id :: id in open <==> Channel(id, OPEN) in channels)
    && (forall id :: id in open ==> !open[id])
    && |open| <= |channels|
  }

  lemma AddChannel(channels: seq<Channel>, open: map<string, bool>, c: Channel)
    requires OpenEntries(channels, open)
    ensures OpenEntries(channels + [c], if c.state == OPEN then open[c.id := false] else open)
  {
  }

  /** `filterOpenChannels`: one inactive entry per identifier of an open channel. */
  method FilterOpenChannels(channels: seq<Channel>) returns (open: map<string, bool>)
    ensures OpenEntries(channels, open)
  {
    open := map[];
    for i := 0 to |channels|
      invariant OpenEntries(channels[..i], open)
    {
      AddChannel(channels[..i], open, channels[i]);
      assert channels[..i + 1] == channels[..i] + [channels[i]];
      if channels[i].state == OPEN {
        open := open[channels[i].id := false];
      }
    }
    assert channels[..|channels|] == channels;
  }

  // ---- The transition system -----------------------------------------------------------

  /** Where the supervisor is. */
  datatype Pc =
    | Listing                  // asking for the channels of the connection
    | Spawning                 // starting workers for inactive channels
    | Selecting                // blocked in `select`
    | Draining                 // cancelled, in `wg.Wait`
    | Querying(id: string)     // asking for the state of the channel just handed back
    | Returning                // the error is sent, the deferred close is next
    | Closed

  /**
    `running` are workers before `wg.Done`, `finishing` those between `wg.Done` and
    their send, `tokens` the buffer of the token channel.  Bags, not sets: that a
    channel has one worker at most is proved, not built in.
   */
  datatype State = State(
    capacity: nat, open: set<string>, active: set<string>,
    running: multiset<string>, finishing: multiset<string>, tokens: seq<string>,
    wg: int, cancelled: bool, pc: Pc,
    errors: nat, closes: nat, removed: set<string>)

  ghost predicate Init(st: State) {
    && |st.open| <= st.capacity && st.active == {} && st.removed == {}
    && st.running == multiset{} && st.finishing == multiset{} && st.tokens == []
    && st.wg == 0 && st.pc == Listing && st.errors == 0 && st.closes == 0
  }

  datatype Event =
    | ListingFails             // error, return
    | ListingDone
    | NoOpenChannels           // the map is empty: error, return
    | SpawnWorker(id: string)
    | EnterSelect
    | TakeToken
    | TakeCancel
    | FinishDrain              // wg.Wait returns: error, return
    | QueryFails               // error, return
    | QueryOpen
    | QueryNotOpen             // the channel is deleted from the map
    | CloseErrors
    | WorkerDone(id: string)   // a worker leaves its loop: wg.Done
    | WorkerSends(id: string)  // its final send, if the buffer has room
    | Cancel                   // the context is cancelled

  /** The channel the error goes to holds one value; a second send would block. */
  predicate CanReport(st: State) { st.errors < 1 }

  predicate Enabled(st: State, ev: Event) {
    match ev
    case ListingFails => st.pc == Listing && CanReport(st)
    case ListingDone => st.pc == Listing
    case NoOpenChannels => st.pc == Spawning && st.open == {} && CanReport(st)
    case SpawnWorker(id) => st.pc == Spawning && id in st.open && id !in st.active
    case EnterSelect => st.pc == Spawning && st.open != {} && st.open <= st.active
    case TakeToken => st.pc == Selecting && st.tokens != []
    case TakeCancel => st.pc == Selecting && st.cancelled
    case FinishDrain => st.pc == Draining && st.wg == 0 && CanReport(st)
    case QueryFails => st.pc.Querying? && CanReport(st)
    case QueryOpen => st.pc.Querying?
    case QueryNotOpen => st.pc.Querying?
    case CloseErrors => st.pc == Returning
    case WorkerDone(id) => id in st.running
    case WorkerSends(id) => id in st.finishing && |st.tokens| < st.capacity
    case Cancel => !st.cancelled
  }

  function Take(st: State, ev: Event): State
    requires Enabled(st, ev)
  {
    match ev
    case ListingFails => st.(errors := st.errors + 1, pc := Returning)
    case ListingDone => st.(pc := Spawning)
    case NoOpenChannels => st.(errors := st.errors + 1, pc := Returning)
    case SpawnWorker(id) => st.(active := st.active + {id}, wg := st.wg + 1, running := st.running + multiset{id})
    case EnterSelect => st.(pc := Selecting)
    case TakeToken =>
      st.(tokens := st.tokens[1..], active := st.active - {st.tokens[0]}, pc := Querying(st.tokens[0]))
    case TakeCancel => st.(pc := Draining)
    case FinishDrain => st.(errors := st.errors + 1, pc := Returning)
    case QueryFails => st.(errors := st.errors + 1, pc := Returning)
    case QueryOpen => st.(pc := Spawning)
    case QueryNotOpen => st.(open := st.open - {st.pc.id}, removed := st.removed + {st.pc.id}, pc := Spawning)
    case CloseErrors => st.(closes := st.closes + 1, pc := Closed)
    case WorkerDone(id) =>
      st.(running := st.running - multiset{id}, finishing := st.finishing + multiset{id}, wg := st.wg - 1)
    case WorkerSends(id) => st.(finishing := st.finishing - multiset{id}, tokens := st.tokens + [id])
    case Cancel => st.(cancelled := true)
  }

  // ---- The invariant ---------------------------------------------------------------------

  /** Workers and tokens together. */
  function Hands(st: State): multiset<string> {
    st.running + st.finishing + multiset(st.tokens)
  }

  /** One worker or one token for each active channel, none for any other. */
  ghost predicate BagsOk(st: State) {
    Hands(st) == multiset(st.active) && st.wg == |st.running|
  }

  ghost predicate ControlOk(st: State) {
    && st.active <= st.open && st.open !! st.removed
    && |st.open| <= st.capacity
    && (st.pc == Selecting ==> st.open != {} && st.active == st.open)
    && (st.pc.Querying? ==> st.pc.id in st.open && st.pc.id !in st.active)
    && st.errors == (if st.pc == Returning || st.pc == Closed then 1 else 0)
    && st.closes == (if st.pc == Closed then 1 else 0)
  }

  ghost predicate Inv(st: State) {
    BagsOk(st) && ControlOk(st)
  }

  lemma SpawnBags(st: State, id: string)
    requires BagsOk(st) && Enabled(st, SpawnWorker(id))
    ensures BagsOk(Take(st, SpawnWorker(id)))
  {
    var st' := Take(st, SpawnWorker(id));
    assert multiset(st'.active) == multiset(st.active) + multiset{id};
    assert Hands(st') == Hands(st) + multiset{id};
  }

  lemma TokenBags(st: State)
    requires BagsOk(st) && Enabled(st, TakeToken)
    ensures BagsOk(Take(st, TakeToken)) && st.tokens[0] in st.active
  {
    var st', id := Take(st, TakeToken), st.tokens[0];
    assert st.tokens == [id] + st.tokens[1..];
    assert id in Hands(st);
    assert multiset(st.tokens) == multiset{id} + multiset(st'.tokens);
    assert Hands(st') == Hands(st) - multiset{id};
    assert multiset(st'.active) == multiset(st.active) - multiset{id};
  }

  lemma DoneBags(st: State, id: string)
    requires BagsOk(st) && Enabled(st, WorkerDone(id))
    ensures BagsOk(Take(st, WorkerDone(id)))
  {
    assert Hands(Take(st, WorkerDone(id))) == Hands(st);
  }

  lemma SendBags(st: State, id: string)
    requires BagsOk(st) && Enabled(st, WorkerSends(id))
    ensures BagsOk(Take(st, WorkerSends(id)))
  {
  }

  lemma TakeKeepsBags(st: State, ev: Event)
    requires BagsOk(st) && Enabled(st, ev)
    ensures BagsOk(Take(st, ev))
  {
    match ev
    case TakeToken => TokenBags(st);
    case SpawnWorker(id) => SpawnBags(st, id);
    case WorkerDone(id) => DoneBags(st, id);
    case WorkerSends(id) => SendBags(st, id);
    case _ =>
  }

  lemma SmallerSet(a: set<string>, id: string)
    ensures |a - {id}| <= |a|
  {
  }

  lemma TakeKeepsControl(st: State, ev: Event)
    requires ControlOk(st) && Enabled(st, ev)
    requires ev == TakeToken ==> st.tokens[0] in st.active
    ensures ControlOk(Take(st, ev))
  {
    if st.pc.Querying? {
      SmallerSet(st.open, st.pc.id);
    }
  }

  lemma TakeKeepsInv(st: State, ev: Event)
    requires Inv(st) && Enabled(st, ev)
    ensures Inv(Take(st, ev))
  {
    TakeKeepsBags(st, ev);
    if ev == TakeToken {
      TokenBags(st);
    }
    TakeKeepsControl(st, ev);
  }

  // ---- Runs --------------------------------------------------------------------------------

  /** `trace` is a run: it starts in an initial state and every step is an enabled event. */
  ghost predicate IsRun(trace: seq<State>, events: seq<Event>) {
    && |trace| == |events| + 1 && Init(trace[0])
    && forall i {:trigger events[i]} :: 0 <= i < |events| ==> Step(trace[i], events[i], trace[i + 1])
  }

  ghost predicate Step(st: State, ev: Event, st': State) {
    Enabled(st, ev) && st' == Take(st, ev)
  }

  lemma {:induction false} RunInv(trace: seq<State>, events: seq<Event>, i: nat)
    requires IsRun(trace, events) && i < |trace|
    ensures Inv(trace[i])
  {
    if i > 0 {
      RunInv(trace, events, i - 1);
      var ev := events[i - 1];
      assert Step(trace[i - 1], ev, trace[i]);
      TakeKeepsInv(trace[i - 1], ev);
    }
  }

  /** An active channel has one worker or one token, never two; every other channel has neither. */
  lemma OneHandPerChannel(trace: seq<State>, events: seq<Event>, i: nat, id: string)
    requires IsRun(trace, events) && i < |trace|
    ensures var st := trace[i];
            var hands := st.running[id] + st.finishing[id] + multiset(st.tokens)[id];
            hands == (if id in st.active then 1 else 0) && (id in st.active ==> id in st.open)
  {
    RunInv(trace, events, i);
    var st := trace[i];
    assert Hands(st)[id] == multiset(st.active)[id];
  }

  /** No worker's final send ever blocks, not even after the supervisor has returned. */
  lemma FinalSendNeverBlocks(trace: seq<State>, events: seq<Event>, i: nat, id: string)
    requires IsRun(trace, events) && i < |trace| && id in trace[i].finishing
    ensures Enabled(trace[i], WorkerSends(id))
    ensures |trace[i].running| + |trace[i].finishing| + |trace[i].tokens| <= trace[i].capacity
  {
    RunInv(trace, events, i);
    HandsFit(trace[i]);
  }

  lemma HandsFit(st: State)
    requires Inv(st)
    ensures |st.running| + |st.finishing| + |st.tokens| == |st.active| <= st.capacity
  {
    assert |Hands(st)| == |st.running| + |st.finishing| + |st.tokens|;
    assert |multiset(st.active)| == |st.active|;
    SubsetSize(st.active, st.open);
  }

  lemma {:induction false} SubsetSize(a: set<string>, b: set<string>)
    requires a <= b
    ensures |a| <= |b|
    decreases |a|
  {
    if a != {} {
      var x :| x in a;
      SubsetSize(a - {x}, b - {x});
    }
  }

  /** In `select` there is always something to wait for. */
  lemma SelectWaitsForSomeone(trace: seq<State>, events: seq<Event>, i: nat)
    requires IsRun(trace, events) && i < |trace| && trace[i].pc == Selecting
    ensures |trace[i].running| + |trace[i].finishing| + |trace[i].tokens| > 0
  {
    RunInv(trace, events, i);
    HandsFit(trace[i]);
    assert trace[i].active != {};
  }

  /** The error channel gets exactly one error, before it is closed, once; the supervisor never blocks on it. */
  lemma ExactlyOneError(trace: seq<State>, events: seq<Event>, i: nat)
    requires IsRun(trace, events) && i < |trace|
    ensures trace[i].errors == (if trace[i].pc == Returning || trace[i].pc == Closed then 1 else 0)
    ensures trace[i].closes == (if trace[i].pc == Closed then 1 else 0)
    ensures trace[i].pc != Returning && trace[i].pc != Closed ==> CanReport(trace[i])
  {
    RunInv(trace, events, i);
  }

  /** On cancellation the error is sent only after every started worker has signalled done. */
  lemma CancelWaitsForWorkers(trace: seq<State>, events: seq<Event>, i: nat)
    requires IsRun(trace, events) && i < |events| && events[i] == FinishDrain
    ensures trace[i].running == multiset{} == trace[i + 1].running
  {
    RunInv(trace, events, i);
    assert Step(trace[i], events[i], trace[i + 1]);
    EmptyBag(trace[i].running);
  }

  lemma EmptyBag(m: multiset<string>)
    requires |m| == 0
    ensures m == multiset{}
  {
  }

  lemma TakeKeepsRemoved(st: State, ev: Event, st': State, id: string)
    requires Step(st, ev, st') && id in st.removed
    ensures id in st'.removed
  {
  }

  lemma RemovedHasNone(st: State, id: string)
    requires Inv(st) && id in st.removed
    ensures id !in st.open && id !in Hands(st) && !Enabled(st, SpawnWorker(id))
  {
  }

  /** A channel removed from the map stays removed: it has no worker, no token, and gets none again. */
  lemma {:induction false} RemovedStaysRemoved(trace: seq<State>, events: seq<Event>, i: nat, j: nat, id: string)
    requires IsRun(trace, events) && i <= j < |trace| && id in trace[i].removed
    ensures id in trace[j].removed && id !in trace[j].open && id !in Hands(trace[j])
    ensures !Enabled(trace[j], SpawnWorker(id))
    decreases j
  {
    if i < j {
      RemovedStaysRemoved(trace, events, i, j - 1, id);
      var ev := events[j - 1];
      TakeKeepsRemoved(trace[j - 1], ev, trace[j], id);
    }
    RunInv(trace, events, j);
    RemovedHasNone(trace[j], id);
  }

  /** One step: a channel leaves the map when the query finds it not open, and at no other event; none comes in. */
  lemma TakeRemoves(st: State, ev: Event, st': State, id: string)
    requires Inv(st) && Step(st, ev, st')
    ensures id in st.open && id !in st'.open <==> ev == QueryNotOpen && st.pc == Querying(id)
    ensures id in st'.open ==> id in st.open
    ensures id in st'.removed && id !in st.removed <==> ev == QueryNotOpen && st.pc == Querying(id)
  {
  }

  /** Over every run: a channel leaves the map exactly when the query about it says that it is not open. */
  lemma RemovedIff(trace: seq<State>, events: seq<Event>, i: nat, id: string)
    requires IsRun(trace, events) && i < |events|
    ensures id in trace[i].open && id !in trace[i + 1].open <==> events[i] == QueryNotOpen && trace[i].pc == Querying(id)
    ensures id in trace[i + 1].open ==> id in trace[i].open
  {
    RunInv(trace, events, i);
    TakeRemoves(trace[i], events[i], trace[i + 1], id);
  }

  /** A channel found not open is never relayed again. */
  lemma NotOpenIsRemoved(trace: seq<State>, events: seq<Event>, i: nat, j: nat, id: string)
    requires IsRun(trace, events) && i < j < |trace| && events[i] == QueryNotOpen && trace[i].pc == Querying(id)
    ensures id !in trace[j].open && id !in Hands(trace[j])
    ensures j < |events| ==> events[j] != SpawnWorker(id)
  {
    RunInv(trace, events, i);
    TakeRemoves(trace[i], events[i], trace[i + 1], id);
    RemovedStaysRemoved(trace, events, i + 1, j, id);
    if j < |events| {
      assert Step(trace[j], events[j], trace[j + 1]);
    }
  }

  /** A channel found open is still in the map, and its next worker can start at once. */
  lemma OpenIsRespawnable(trace: seq<State>, events: seq<Event>, i: nat, id: string)
    requires IsRun(trace, events) && i < |events| && events[i] == QueryOpen && trace[i].pc == Querying(id)
    ensures var st := trace[i + 1];
            id in st.open && id !in Hands(st) && Enabled(st, SpawnWorker(id))
  {
    RunInv(trace, events, i);
    RunInv(trace, events, i + 1);
    assert Step(trace[i], events[i], trace[i + 1]);
  }

  /** The state after a list of events, each enabled in its turn. */
  ghost predicate Leads(st: State, events: seq<Event>, st': State)
    decreases |events|
  {
    if events == [] then st' == st else Enabled(st, events[0]) && Leads(Take(st, events[0]), events[1..], st')
  }

  /** A worker that ended on an open channel is replaced, and nothing else changes. */
  lemma Respawn(st: State)
    requires Inv(st) && st.pc == Selecting && st.tokens != []
    ensures var id := st.tokens[0];
            Leads(st, [TakeToken, QueryOpen, SpawnWorker(id), EnterSelect],
                  st.(tokens := st.tokens[1..], running := st.running + multiset{id}, wg := st.wg + 1))
  {
    var id := st.tokens[0];
    TokenBags(st);
    var open := Take(Take(st, TakeToken), QueryOpen);
    assert Enabled(open, SpawnWorker(id));
    var spawned := Take(open, SpawnWorker(id));
    assert spawned.active == st.active;
    LeadsFour(st, TakeToken, QueryOpen, SpawnWorker(id), EnterSelect);
  }

  lemma LeadsFour(st: State, a: Event, b: Event, c: Event, d: Event)
    requires Enabled(st, a) && Enabled(Take(st, a), b) && Enabled(Take(Take(st, a), b), c)
    requires Enabled(Take(Take(Take(st, a), b), c), d)
    ensures Leads(st, [a, b, c, d], Take(Take(Take(Take(st, a), b), c), d))
  {
    var st1, st2 := Take(st, a), Take(Take(st, a), b);
    var end := Take(Take(st2, c), d);
    LeadsFirst(Take(st2, c), d, [], [d], end);
    LeadsFirst(st2, c, [d], [c, d], end);
    LeadsFirst(st1, b, [c, d], [b, c, d], end);
    LeadsFirst(st, a, [b, c, d], [a, b, c, d], end);
  }

  lemma LeadsFirst(st: State, ev: Event, rest: seq<Event>, events: seq<Event>, end: State)
    requires Enabled(st, ev) && Leads(Take(st, ev), rest, end) && events == [ev] + rest
    ensures Leads(st, events, end)
  {
    assert events[1..] == rest;
  }

  /** The channel whose worker ended is gone. */
  function Without(st: State): State
    requires st.tokens != []
  {
    var id := st.tokens[0];
    st.(tokens := st.tokens[1..], open := st.open - {id}, active := st.active - {id}, removed := st.removed + {id})
  }

  lemma WithoutReached(st: State)
    requires Inv(st) && st.pc == Selecting && st.tokens != []
    ensures Enabled(st, TakeToken) && Enabled(Take(st, TakeToken), QueryNotOpen)
    ensures Take(Take(st, TakeToken), QueryNotOpen) == Without(st).(pc := Spawning)
    ensures Without(st).open == Without(st).active && st.errors == 0 && st.closes == 0
  {
    TokenBags(st);
  }

  /** A worker that ended on a closed channel is not; with the last channel the supervisor ends with an error. */
  lemma Retire(st: State)
    requires Inv(st) && st.pc == Selecting && st.tokens != []
    ensures if Without(st).open == {} then
              Leads(st, [TakeToken, QueryNotOpen, NoOpenChannels, CloseErrors], Without(st).(errors := 1, closes := 1, pc := Closed))
            else Leads(st, [TakeToken, QueryNotOpen, EnterSelect], Without(st))
  {
    WithoutReached(st);
    var gone := Without(st).(pc := Spawning);
    if gone.open == {} {
      LeadsFour(st, TakeToken, QueryNotOpen, NoOpenChannels, CloseErrors);
    } else {
      LeadsFirst(gone, EnterSelect, [], [EnterSelect], Without(st));
      LeadsFirst(Take(st, TakeToken), QueryNotOpen, [EnterSelect], [QueryNotOpen, EnterSelect], Without(st));
      LeadsFirst(st, TakeToken, [QueryNotOpen, EnterSelect], [TakeToken, QueryNotOpen, EnterSelect], Without(st));
    }
  }

  lemma TakeKeepsCause(st: State, ev: Event, st': State)
    requires Step(st, ev, st') && (st.pc == Draining ==> st.cancelled)
    ensures st'.pc == Draining ==> st'.cancelled
  {
  }

  /** The supervisor drains only when it has been cancelled. */
  lemma {:induction false} DrainsWhenCancelled(trace: seq<State>, events: seq<Event>, i: nat)
    requires IsRun(trace, events) && i < |trace| && trace[i].pc == Draining
    ensures trace[i].cancelled
    decreases i
  {
    if i > 0 {
      assert Step(trace[i - 1], events[i - 1], trace[i]);
      if trace[i - 1].pc == Draining {
        DrainsWhenCancelled(trace, events, i - 1);
      }
      TakeKeepsCause(trace[i - 1], events[i - 1], trace[i]);
    }
  }

  /** What makes the supervisor return: a failed query, an empty map, or a cancellation after all workers are done. */
  lemma WhyItReturns(trace: seq<State>, events: seq<Event>, i: nat)
    requires IsRun(trace, events) && i < |events| && trace[i].pc != Returning
    ensures trace[i + 1].pc == Returning <==>
            || events[i] == ListingFails || events[i] == QueryFails
            || (events[i] == NoOpenChannels && trace[i].open == {})
            || (events[i] == FinishDrain && trace[i].cancelled && trace[i].running == multiset{})
  {
    RunInv(trace, events, i);
    assert Step(trace[i], events[i], trace[i + 1]);
    if events[i] == FinishDrain {
      CancelWaitsForWorkers(trace, events, i);
      DrainsWhenCancelled(trace, events, i);
    }
  }

  // ---- Progress ------------------------------------------------------------------------------

  ghost predicate Finished(st: State) {
    st.pc == Closed && st.running == multiset{} && st.finishing == multiset{}
  }

  /** No deadlock: until supervisor and workers have all ended, some step other than a cancellation can be taken. */
  lemma NeverDeadlocked(st: State) returns (ev: Event)
    requires Inv(st) && !Finished(st)
    ensures ev != Cancel && Enabled(st, ev)
  {
    HandsFit(st);
    if st.running != multiset{} {
      var id :| id in st.running;
      ev := WorkerDone(id);
    } else if st.finishing != multiset{} {
      var id :| id in st.finishing;
      ev := WorkerSends(id);
    } else {
      ev := match st.pc
        case Listing => ListingDone
        case Spawning =>
          if st.open == {} then NoOpenChannels
          else if st.open <= st.active then EnterSelect
          else var id :| id in st.open && id !in st.active; SpawnWorker(id)
        case Selecting => TakeToken
        case Draining => FinishDrain
        case Querying(_) => QueryOpen
        case Returning => CloseErrors
        case Closed => CloseErrors;
    }
  }

  /** Steps left once the supervisor has stopped selecting. */
  function Rest(st: State): nat {
    2 * |st.running| + |st.finishing| + (if st.cancelled then 0 else 1)
    + (match st.pc case Draining => 2 case Returning => 1 case _ => 0)
  }

  ghost predicate Ending(st: State) {
    st.pc == Draining || st.pc == Returning || st.pc == Closed
  }

  lemma BagMinus(m: multiset<string>, id: string)
    requires id in m
    ensures |m - multiset{id}| == |m| - 1
  {
  }

  lemma WorkersEnd(st: State, id: string)
    requires Ending(st)
    ensures Enabled(st, WorkerDone(id)) ==> Rest(Take(st, WorkerDone(id))) < Rest(st)
    ensures Enabled(st, WorkerSends(id)) ==> Rest(Take(st, WorkerSends(id))) < Rest(st)
  {
    if id in st.running {
      BagMinus(st.running, id);
    }
    if id in st.finishing {
      BagMinus(st.finishing, id);
    }
  }

  /** From then on every step uses up some of a bounded rest, so draining and shutdown terminate. */
  lemma EndingTerminates(st: State, ev: Event)
    requires Ending(st) && Enabled(st, ev)
    ensures Ending(Take(st, ev)) && Rest(Take(st, ev)) < Rest(st)
  {
    match ev
    case WorkerDone(id) => WorkersEnd(st, id);
    case WorkerSends(id) => WorkersEnd(st, id);
    case _ =>
  }

  // ---- Start-up -------------------------------------------------------------------------------

  /**
    The state the supervisor starts in: the token buffer is as large as the
    unfiltered list of channels, which bounds the filtered, de-duplicated map.
   */
  method Start(rule: Rule, list: seq<string>, channels: seq<Channel>) returns (st: State)
    ensures Init(st) && st.capacity == |channels|
    ensures rule == AllowList ==> forall id :: id in st.open <==> Channel(id, OPEN) in channels && id in list
    ensures rule == DenyList ==> forall id :: id in st.open <==> Channel(id, OPEN) in channels && id !in list
    ensures rule == NoRule ==> forall id :: id in st.open <==> Channel(id, OPEN) in channels
  {
    var kept, at := ApplyChannelFilterRule(rule, list, channels);
    var open := FilterOpenChannels(kept);
    assert forall c :: c in kept <==> c in channels && Passes(rule, list, c);
    st := State(|channels|, open.Keys, {}, multiset{}, multiset{}, [], 0, false, Listing, 0, 0, {});
  }
}
