# Relaying, denominations, gas and fixed-point money: a Dafny model

This project models the hardest logic that ships in the repository: the legacy IBC
relayer under `deps/relayer/relayer`, the ICS-20 denomination handling and the multisig
gas metering of `deps/evmos`, linear vesting in `utils/utils.go`, coin splitting in
`deps/archway-main/pkg`, and the transaction counter of `deps/evmos/app`. Every claim is
about all inputs, all interleavings or all runs.

Verify everything with `dafny verify dfyconfig.toml`.

## How it fits together

**The relayer.**

- `Packets` is the world the relayer acts on: two chains, each a sequence of block states of one
  channel end with their block times, under the packet rules of ICS-4 as ibc-go implements them:
  sends, receives, acknowledgements, timeouts by height and by timestamp, timeouts on close,
  and closing from either side. Every message names the counterparty height its proof was taken
  from, so late, stale and racing relayers are all runs of the model. `EveryRunIsSafe` is the
  safety theorem: at most one delivery, never both acknowledged and timed out, no gaps on an
  ordered channel, and every sent packet is outstanding, acknowledged or timed out.
- `Ledgers` states the same rules on what applications see, logs of packets sent, delivered,
  acknowledged and timed out; the handlers, which keep counters, receipts and commitments in their
  place, do exactly what these rules say over every run. `Redundancy` is about relayers that race
  or repeat themselves: what is done already is a no-op, and what is due is accepted.
- `ForkJoin` is the goroutine machine of the two unrelayed queries, packets with three barriers and
  acknowledgements with two; `Confluent` says the scheduler cannot be seen in the result.
- `Batching` is the size- and count-limited sender. Its log is judged by predicates that do not
  mention the loop (it concatenates to the queue, is legal, is maximal), and `SendIsOptimal`
  compares any such log with any legal split.
- `Relay` says what a log of batches does to a chain: each batch is a transaction in a block of
  its own, after any number of idle blocks; a rejected batch changes nothing and the next one is
  sent all the same; an empty batch is always rejected.
- `Rounds` has the two phases of a pass, with idle blocks allowed before the queries, before
  the messages are built and before every batch. `PacketRounds` says, for both channel orders, any
  cut and any gaps, which batches of a packet queue a chain accepts and that exactly their messages
  are carried out; `PacketPhases` says when nothing but an empty batch is rejected, and what is lost
  otherwise. `UnorderedRounds` and `OrderedRounds` say what the phases of a pass achieve together.
- `Passes` chains passes, with new packets sent between them. `Draining` counts deliveries over any
  number of passes, `DeadEnds` says what becomes of an ordered channel once a packet has expired,
  `OrderedAcks` what an acknowledgement queue leaves for any listing and any cut, `Settling` follows
  acknowledgements over many passes, and `Stuck` shows when they never come through.
- `RelayRound` holds the code of a round (loops, queues, sends, failing remote queries) and `Worker` the
  loop of a worker. `Outcomes` says what such a worker achieves and exactly when it stops.
- `Supervisor` is the transition system of supervisor, workers, token channel, wait group and
  error channel.

**The rest.** `Denoms` treats full denominations as words over channel ends: a transfer is
one step of word reduction, reachable traces stay reduced, and any route can be unwound; `Balances`
shows balances under these paths. `Gas` walks nested multisig keys with a mutable meter and is proved
against a scan with a closed form. `Decimal` is the 18-digit decimal, whose chop is characterised as
rounding half to even; `Vesting`, `Coins` and `Splitting` build on it. `Tps` is the wrapping counter
with concurrent increments. `Types` and `Text` hold what the modules share.

## What turned out to be false, and when it is true

- A relay phase does not always go through: when the client update alone exceeds the size limit,
  `send` submits an empty batch first, which a chain rejects. `RelayPackets` then logs an error;
  `RelayAcknowledgements` ends the worker. Everything else is still delivered. An empty batch is sent
  if and only if there is something to send and the update does not fit (`IsSend`), so a worker whose
  queries are answered stops in an acknowledgement phase if and only if an update it needs is
  oversized (`UnorderedWorker`, `OrderedWorker`). `OversizedStops` is a run in which it stops although
  the acknowledgement was relayed.
- The relayer still relays a packet at its very timeout timestamp, at which the receiver already
  rejects it; `Lapsed` and `Expired` differ exactly there (`LiveButExpiredIff`). A packet phase has only
  empty batches rejected if and only if no packet has expired at the block its own batch lands in
  (`UnorderedPackets`), and an iteration leaves both chains clear if and only if the same holds
  (`ClearIff`). A packet judged live at its timestamp is never in time, however the queue is cut and
  sent (`RelayedTooLate`); `TimestampRunIsLate` is such a run.
- On an ordered channel both directions make progress in a pass if and only if no packet is given up and every
  batch is in time (`PassTicks`, `PassesTick`). Once the packet that is due has expired nothing is
  delivered in its direction any more, in any run (`DeadOverRuns`). The pass that times it out closes
  the sender's end (`SourceTimesOut`, `DestinationTimesOut`); but the source queue lists timeouts before
  receives, so a timeout and a receive in one transaction are rejected together (`TogetherRejected`),
  and both directions then stand still until the other packet expires too (`BlockedRun`, with the run
  `CrossedRun`).
- Acknowledgements on an ordered channel are built in the order the store lists them, and
  store keys are text, so 10 is listed before 9. A queue goes through if and only if the
  listing is consecutive from the next expected acknowledgement (`OrderedAcksIff`). With text listings
  it does if and only if no two of the owed numbers are put the other way round by text
  (`TextPhaseIff`). With such a pair and one batch per phase it stays so for good (`StuckForever`).
  `OutOfOrderRun` is a run from the opening of a channel that ends with 10 before 9, and
  `OutOfOrderRejected` says that no cut is accepted there. A worker that starts without an
  acknowledgement debt never meets the problem, whatever expires (`SteadyRun`).
- Sending over a channel and straight back does not restore every denomination: it does if and
  only if the denomination does not start with the hop and its own pair (`RoundTripIff`,
  `DoubledPrefixIsLost`). Every reachable trace satisfies the condition (`RoundTrip`).
- Parsing and printing a denomination is not the identity: a denomination made of port and
  channel pairs only comes back with a slash at its end (`ParsePrint`, `PathOnlyGainsSlash`).
- The vesting end is a 64-bit sum. When it wraps, everything is released right after the start
  (`OverflowReleasesAll`); the accuracy bound holds for every amount if and only if the end fits
  or lies within rounding distance (`AccurateIff`).
- A rejected packet batch does not stop the worker, a rejected acknowledgement does: with an error that is
  not fatal the worker goes on (`RejectedGoesOn` is such a turn).
- Coin splitting panics even for a ratio in [0, 1] when an amount is so near 2^256 that its product
  exceeds the 315 bits of a decimal, and only then (`SplitAddsBack`, `HugeAmountPanics`).
- The counter loses an interval as a whole when it wraps or moves by 2^63 or more; otherwise
  it is exact, and this is an equivalence (`RecordedSum`). Every rising list of counts is read in some
  run (`Realised`), so such intervals occur (`WrapLosesInterval`).

## Modelling decisions

- A proof at height h shows the state of block h and carries its time; headers and state roots
  that lag one block behind are not distinguished.
- A packet is received and acknowledged in one step; data, ports and capabilities do not appear.
- Decimals are integers scaled by 10^18. A quotient truncates at 36 digits and is then rounded
  half to even to 18. Bit lengths are checked where they can be exceeded (`Coins`, `Splitting`); with
  64-bit vesting amounts they cannot.
- Query results, provider answers, message sizes, block times, hashes, case folding and denomination
  validity are parameters. A store lists its members in an arbitrary order unless a theorem says
  otherwise.
- The comment on `relayUnrelayedPackets` says that it reports failure when packets could not be relayed;
  the code reports success unless the context is finished or the node does not index transactions.
  The model follows the code.
- 64-bit wrap-around is explicit where it matters: vesting end, gas meter, counter.
- Go's truncating division is written out (`Decimal.TruncQuo`).

## Model

| member | source | states |
|---|---|---|
| Batching.SendQueue | deps/relayer/relayer/relayMsgs.go:163-232 | the batches sent are the lead batch (if any) followed by a legal, maximal split of the queue; successes and errors are those of exactly these calls, and a failed batch does not stop the next |
| Batching.SendBatch | deps/relayer/relayer/relayMsgs.go:196-213 | one call is logged and its outcome booked |
| Batching.MaximalIsShortest | deps/relayer/relayer/relayMsgs.go:71-74 | any legal, maximal split has at most as many batches as any legal split of a queue it is a suffix of |
| Batching.SendIsOptimal | deps/relayer/relayer/relayMsgs.go:175-231 | no legal split of the queue uses fewer batches than were sent, not counting the empty lead batch |
| Batching.LogIsQueue | deps/relayer/relayer/relayMsgs.go:175-231 | the batches in send order concatenate to the queue: nothing lost, duplicated or reordered |
| Batching.OnlyLeadIsEmpty | deps/relayer/relayer/relayMsgs.go:189-216 | a batch is empty only first, exactly when the first message alone is oversized; every other batch respects both limits or is one oversized message |
| Batching.BatchLimits | deps/relayer/relayer/relayMsgs.go:71-74 | no batch holds more messages than the limit, and none more bytes but a single message that is too large itself |
| Batching.CutWhenFull | deps/relayer/relayer/relayMsgs.go:189-216 | a batch is cut only where the next message would exceed the message or the byte limit |
| Batching.ErrorsOfCall | deps/relayer/relayer/relayMsgs.go:199-213 | the errors of every call are booked in order, none lost |
| Packets.RecvKeeps | vendor/github.com/cosmos/ibc-go/v7/modules/core/04-channel/keeper/packet.go:121-350 | receiving, with the acknowledgement written, keeps the two-chain invariant whatever height the proof is from |
| Packets.AckKeeps | vendor/github.com/cosmos/ibc-go/v7/modules/core/04-channel/keeper/packet.go:358-485 | processing an acknowledgement keeps the invariant |
| Packets.TimeoutKeeps | vendor/github.com/cosmos/ibc-go/v7/modules/core/04-channel/keeper/timeout.go:23-178 | timing a packet out, by height or timestamp, keeps the invariant, on ordered channels with the closing of the end |
| Packets.TimeoutOnCloseKeeps | vendor/github.com/cosmos/ibc-go/v7/modules/core/04-channel/keeper/timeout.go:183-286 | timing a packet out because the counterparty has closed keeps the invariant |
| Packets.CloseKeeps | vendor/github.com/cosmos/ibc-go/v7/modules/core/04-channel/keeper/handshake.go:380-488 | closing an end, on its own or after the counterparty, keeps the invariant |
| Packets.SendKeeps | vendor/github.com/cosmos/ibc-go/v7/modules/core/04-channel/keeper/packet.go:22-117 | sending keeps the invariant; every sent packet has a deadline the light client does not see passed |
| Packets.RunKeeps | vendor/github.com/cosmos/ibc-go/v7/modules/core/04-channel/keeper/packet.go:22-485 | the invariant holds after every run of sends, transactions, closings and idle blocks on both chains |
| Packets.EveryRunIsSafe | vendor/github.com/cosmos/ibc-go/v7/modules/core/04-channel/keeper/packet.go:22-485 | in every run: delivered at most once and only if sent, gap-free when ordered, acknowledged only after delivery, timed out only without it, and outstanding exactly when neither |
| Ledgers.ExecActs | vendor/github.com/cosmos/ibc-go/v7/modules/core/04-channel/keeper/packet.go:22-485 | every message is accepted on counters, receipts and commitments exactly when it is on logs, with the same effect |
| Ledgers.RunActs | vendor/github.com/cosmos/ibc-go/v7/modules/core/04-channel/keeper/packet.go:22-485 | every run of the channel, seen on its logs, is a run of the rules on logs |
| Redundancy.ReceivedAgain | vendor/github.com/cosmos/ibc-go/v7/modules/core/04-channel/keeper/packet.go:211-242 | a packet that has been delivered is received again without effect and without failing the transaction |
| Redundancy.SettledAgain | vendor/github.com/cosmos/ibc-go/v7/modules/core/04-channel/keeper/packet.go:419-426 | a packet that has been acknowledged or timed out is so again without effect |
| Redundancy.InsertDone | vendor/github.com/cosmos/ibc-go/v7/modules/core/keeper/msg_server.go:430-446 | a message with nothing left to do can be put anywhere into a transaction without changing what the transaction does |
| Redundancy.Idempotent | vendor/github.com/cosmos/ibc-go/v7/modules/core/keeper/msg_server.go:430-446 | an accepted transaction that leaves the end open can be repeated, and does nothing the second time |
| Redundancy.DueIsReceived | vendor/github.com/cosmos/ibc-go/v7/modules/core/04-channel/keeper/packet.go:121-350 | a packet whose turn has come and that is in time is delivered |
| Redundancy.DueIsAcknowledged | vendor/github.com/cosmos/ibc-go/v7/modules/core/04-channel/keeper/packet.go:358-485 | a delivered packet whose turn has come is acknowledged |
| Redundancy.DueIsTimedOut | vendor/github.com/cosmos/ibc-go/v7/modules/core/04-channel/keeper/timeout.go:23-178 | an expired packet that was not delivered is timed out, and an ordered end closes with it |
| Redundancy.ClosedIsTimedOut | vendor/github.com/cosmos/ibc-go/v7/modules/core/04-channel/keeper/timeout.go:183-286 | when the counterparty has closed, every packet it lacks is timed out, expired or not, open or not |
| Redundancy.CloseTravels | vendor/github.com/cosmos/ibc-go/v7/modules/core/04-channel/keeper/handshake.go:380-488 | closing one end lets the other be closed behind it, and changes nothing else |
| Redundancy.SentIff | vendor/github.com/cosmos/ibc-go/v7/modules/core/04-channel/keeper/packet.go:22-117 | a packet is sent if and only if the end is open, it has a deadline, and no block the light client knows has passed it |
| ForkJoin.RunOk | deps/relayer/relayer/naive-strategy.go:29-367 | after any schedule each direction's variables are those of its own progress, for packets and for acknowledgements |
| ForkJoin.Confluent | deps/relayer/relayer/naive-strategy.go:16-367 | any schedule of either function that finishes gives what the two directions give one after the other |
| ForkJoin.StepsTerminate | deps/relayer/relayer/naive-strategy.go:29-367 | every step that changes anything uses up a phase or some bounded work within it |
| ForkJoin.NeverStuck | deps/relayer/relayer/naive-strategy.go:29-367 | before the last barrier some goroutine can move |
| ForkJoin.FailuresShrink | deps/relayer/relayer/naive-strategy.go:29-367 | what is found with failing queries is a subset of what is found without |
| Relay.PendingMembers | vendor/github.com/cosmos/ibc-go/v7/modules/core/04-channel/keeper/grpc_query.go:390-457 | on an unordered channel the pending packets are, once each, the outstanding ones without a receipt |
| Relay.PendingAckMembers | vendor/github.com/cosmos/ibc-go/v7/modules/core/04-channel/keeper/grpc_query.go:476-507 | the pending acknowledgements are, once each, the written ones still waited for |
| Relay.LiveDeadMembers | deps/relayer/relayer/chains/cosmos/tx.go:513-538 | the pending packets split by whether the relayer gives them up at the receiver's height and time, without duplicates |
| Relay.BatchesActAsOne | deps/relayer/relayer/relayMsgs.go:175-231 | however a queue is cut and whatever the gaps between its batches: if one transaction as late as the last would be accepted, every batch with a message is, every empty one is rejected, and the chain ends as after that transaction |
| Relay.AckQueue | vendor/github.com/cosmos/ibc-go/v7/modules/core/04-channel/keeper/packet.go:358-485 | on an unordered channel a queue of acknowledgements clears exactly its packets |
| Rounds.SendsCommute | deps/relayer/relayer/relayMsgs.go:144-161 | the two queues are sent concurrently; blocks the other chain produces meanwhile change neither the outcome nor the rejections |
| Rounds.PhaseKeepsInv | deps/relayer/relayer/naive-strategy.go:385-546 | a phase keeps the packet invariant, whatever is rejected and also when it breaks off before sending |
| PacketRounds.ExecGoes | vendor/github.com/cosmos/ibc-go/v7/modules/core/04-channel/keeper/packet.go:121-350 | for messages with right proofs and sequences: accepted exactly when the end is open, no receive has expired and no timeout of an ordered end comes before another message, with the exact effect |
| PacketRounds.OneBatch | deps/relayer/relayer/relayMsgs.go:175-216 | exactly when one batch of a packet queue is accepted, with or without the client update in it, and what it does |
| PacketRounds.PacketSide | deps/relayer/relayer/naive-strategy.go:473-546 | one chain's part of a packet phase, both orders, any cut, any gaps: each batch is judged exactly, and the messages of the accepted ones, and nothing else, are carried out |
| PacketRounds.FoundPending | deps/relayer/relayer/naive-strategy.go:97-240 | the queries find only outstanding packets the receiver has not got, on an ordered channel only the one it expects |
| PacketPhases.GoesIff | vendor/github.com/cosmos/ibc-go/v7/modules/core/04-channel/keeper/packet.go:121-350 | messages go through if and only if the end is open, none has expired, and nothing follows a timeout on an ordered channel |
| PacketPhases.AcceptedIff | deps/relayer/relayer/relayMsgs.go:175-231 | only empty batches are rejected, however the queue is cut, if and only if each batch is in time at its own block and no timeout comes too early |
| PacketPhases.LateLoses | deps/relayer/relayer/relayMsgs.go:175-231 | a log with a batch that is late loses one of its packets |
| PacketPhases.LiveButExpiredIff | deps/relayer/relayer/chains/cosmos/tx.go:513-538 | a packet is judged live and already expired at one moment if and only if that moment is its timeout timestamp and its height is not reached |
| PacketPhases.ExpiredIsLate | deps/relayer/relayer/chains/cosmos/tx.go:513-538 | a packet expired before anything is sent makes its queue late, however it is cut |
| PacketPhases.PhaseCarries | deps/relayer/relayer/naive-strategy.go:473-546 | the phase delivers only live packets, times out only dead ones, and does nothing else to either end |
| PacketPhases.PhaseJudged | deps/relayer/relayer/naive-strategy.go:473-546 | on an open channel only empty batches are rejected if and only if every batch is in time and, when ordered, the source has not both a packet to time out and one to receive |
| PacketPhases.PhaseTakes | deps/relayer/relayer/naive-strategy.go:473-546 | then all live packets are delivered and all dead ones timed out; a phase that is late loses a live packet |
| UnorderedRounds.UnorderedPackets | deps/relayer/relayer/naive-strategy.go:473-546 | the packet phase carries out exactly the messages of the accepted batches, and only empty batches are rejected if and only if every batch is in time |
| UnorderedRounds.UnorderedAcks | deps/relayer/relayer/naive-strategy.go:385-470 | the acknowledgement phase clears every commitment whose acknowledgement was written, and only empty batches are rejected |
| UnorderedRounds.UnorderedIteration | deps/relayer/relayer/strategies.go:348-354 | one iteration, with idle blocks anywhere: exactly the packets of the accepted batches are delivered or timed out, once each, in both directions |
| UnorderedRounds.IterationLeaves | deps/relayer/relayer/strategies.go:348-354 | what stays outstanding are the pending packets that were neither delivered nor timed out |
| UnorderedRounds.ClearIff | deps/relayer/relayer/strategies.go:348-354 | an iteration leaves no commitment on either chain if and only if its packet phase was in time |
| UnorderedRounds.UnorderedRun | deps/relayer/relayer/strategies.go:348-363 | over any number of passes with new packets between them: after each both chains are clear if and only if it was in time, and no acknowledgement is ever rejected |
| UnorderedRounds.RelayedTooLate | deps/relayer/relayer/chains/cosmos/tx.go:513-538 | a pending packet at its timestamp when the messages are built makes the phase late, for every cut and timing |
| UnorderedRounds.TimestampRunIsLate | deps/relayer/relayer/chains/cosmos/tx.go:533-536 | a concrete run in which the relayer relays a packet that is rejected, and the iteration leaves it outstanding |
| Passes.PassesKeepInv | deps/relayer/relayer/strategies.go:348-363 | the packet invariant holds after any passes, whatever is rejected |
| Passes.AttemptsAreSafe | deps/relayer/relayer/strategies.go:348-363 | and so every run in which phases may break off is safe |
| OrderedRounds.BacklogIsNext | deps/relayer/relayer/naive-strategy.go:182-240 | on an open ordered channel, outstanding and unreceived means exactly the packets from the next expected one to the last sent |
| OrderedRounds.OrderedPick | deps/relayer/relayer/naive-strategy.go:182-240 | the queries pick the next expected packet when there is a backlog and nothing otherwise |
| OrderedRounds.OrderedPackets | deps/relayer/relayer/naive-strategy.go:473-546 | the packet phase carries out exactly the messages of the accepted batches, and only empty batches are rejected if and only if every batch is in time and the source has not both a packet to time out and one to receive |
| OrderedRounds.DeliverIff | deps/relayer/relayer/naive-strategy.go:473-546 | the next packet of each direction that has one is delivered if and only if none is given up and every batch is in time |
| Draining.OrderedPass | deps/relayer/relayer/strategies.go:348-354 | a pass on time delivers exactly the next packet of each direction that has one, whatever becomes of the acknowledgements, and closes nothing |
| Draining.PassTicks | deps/relayer/relayer/strategies.go:348-354 | one pass moves both directions on if and only if it is on time |
| Draining.PassesTick | deps/relayer/relayer/strategies.go:348-363 | every pass of a run delivers the next packet of each direction that has one if and only if every pass is on time |
| Draining.OrderedDrain | deps/relayer/relayer/strategies.go:348-363 | k passes on time, with new packets between them, deliver at least min(k, backlog) packets per direction and at most k, exactly that when nothing new is sent |
| Draining.NoneExpiredOnTime | deps/relayer/relayer/strategies.go:348-363 | if no packet that was undelivered at the start has expired at the end, every pass was on time |
| Draining.GapFree | deps/relayer/relayer/naive-strategy.go:182-240 | what is delivered is 1, 2, 3, ... |
| DeadEnds.DeadForever | vendor/github.com/cosmos/ibc-go/v7/modules/core/04-channel/keeper/packet.go:121-350 | once the packet that is due is barred, the receiver delivers nothing more in any continuation of both chains |
| DeadEnds.DeadOverRuns | vendor/github.com/cosmos/ibc-go/v7/modules/core/04-channel/keeper/packet.go:121-350 | the same over every run, whatever relayers and applications do |
| DeadEnds.DeadOverPasses | deps/relayer/relayer/strategies.go:348-363 | no later pass of a worker delivers in that direction |
| DeadEnds.SourceTimesOut | vendor/github.com/cosmos/ibc-go/v7/modules/core/04-channel/keeper/timeout.go:23-178 | a source with nothing to receive times out exactly the packet that is due and closes its end, for every cut |
| DeadEnds.DestinationTimesOut | deps/relayer/relayer/naive-strategy.go:498-502 | the destination receives first, so it also times out exactly the packet that is due when its batches are in time |
| DeadEnds.TogetherRejected | deps/relayer/relayer/naive-strategy.go:498-502 | a timeout and a receive for the source in one transaction are rejected, and nothing is carried out |
| DeadEnds.BlockedRun | deps/relayer/relayer/strategies.go:348-363 | then nothing is delivered or timed out in either direction, over any number of passes, until the other packet expires too |
| DeadEnds.CrossedRun | deps/relayer/relayer/naive-strategy.go:498-502 | a concrete run that gets there |
| OrderedAcks.OrderedAckQueue | vendor/github.com/cosmos/ibc-go/v7/modules/core/04-channel/keeper/packet.go:441-470 | an ordered end accepts acknowledgements if and only if they are consecutive from the next expected one, and then credits exactly them |
| OrderedAcks.OneBatch | vendor/github.com/cosmos/ibc-go/v7/modules/core/04-channel/keeper/packet.go:358-485 | exactly when one batch of acknowledgements is accepted, with or without the client update in it, and what it does |
| OrderedAcks.AckRound | deps/relayer/relayer/naive-strategy.go:399-429 | for any listing and any cut: which batches are accepted, that the acknowledgements taken continue the sequence, and that nothing else changes |
| OrderedAcks.OrderedAcksIff | deps/relayer/relayer/naive-strategy.go:399-429 | but for empty batches the queue goes through, however cut, if and only if the listing is consecutive from the next expected one |
| Settling.OneAckIsConsecutive | deps/relayer/relayer/naive-strategy.go:399-429 | with one acknowledgement owed the listing order cannot matter |
| Settling.SteadyPass | deps/relayer/relayer/strategies.go:348-363 | without an acknowledgement debt the acknowledgement phase of any pass is accepted but for empty batches, for all listings, cuts, gaps and timeouts, and leaves no debt |
| Settling.SteadyRun | deps/relayer/relayer/strategies.go:348-363 | the same for any number of passes, whatever expires and whichever end is closed |
| Settling.EnoughIsClear | deps/relayer/relayer/strategies.go:348-363 | after as many passes on time as there were packets to deliver, and no new ones, nothing is outstanding on either chain |
| Stuck.TextIff | deps/relayer/relayer/chains/cosmos/query.go:857-882 | a range listed as text is in sequence if and only if text agrees with the numbers on every pair |
| Stuck.TextPhaseIff | deps/relayer/relayer/naive-strategy.go:399-429 | with text listings the acknowledgements go through, however cut, if and only if no two of the owed numbers are inverted |
| Stuck.StuckForever | deps/relayer/relayer/naive-strategy.go:399-429 | with any two owed acknowledgements that text puts the other way round, listings in text order sent in one batch leave the sender waiting after any number of passes |
| Stuck.NeverCleared | deps/relayer/relayer/strategies.go:501-513 | both packets stay outstanding and the next acknowledgement phase is rejected again |
| Stuck.OutOfOrderRun | deps/relayer/relayer/chains/cosmos/query.go:857-882 | a concrete run from the opening of the channel after which 9 is expected and the store lists 10 before 9 |
| Stuck.OutOfOrderRejected | deps/relayer/relayer/naive-strategy.go:399-429 | in that state the acknowledgement queue is not accepted, however it is cut |
| Stuck.RunNeverCleared | deps/relayer/relayer/strategies.go:348-363 | no worker that lists as text and sends in one batch gets out of that state |
| RelayRound.AddMessagesForSequences | deps/relayer/relayer/naive-strategy.go:550-594 | receives go to the destination queue and timeouts to the source queue, in order, up to the first provider error |
| RelayRound.ProvidedBodies | deps/relayer/relayer/chains/cosmos/tx.go:1046-1111 | when its remote queries are answered the provider has a receive for each live packet and a timeout for each expired one |
| RelayRound.RefusedIff | deps/relayer/relayer/chains/cosmos/tx.go:513-527 | a sent packet is refused if and only if a query for it fails or it has neither timeout height nor timestamp |
| RelayRound.PrependUpdate | deps/relayer/relayer/relayMsgs.go:41-69 | a non-empty queue gets exactly one client update in front; an empty one stays empty |
| RelayRound.Reported | deps/relayer/relayer/relayMsgs.go:199-213 | the errors and successes `send` books are the rejections and acceptances of the chain |
| RelayRound.EmptyBatchIff | deps/relayer/relayer/relayMsgs.go:175-216 | no batch is empty if and only if the first message of the queue fits |
| RelayRound.SendUpdated | deps/relayer/relayer/relayMsgs.go:144-161 | the batches are the update and the queue, cut greedily; an error means a rejection; an empty batch is sent if and only if there is something to send and the update is oversized |
| RelayRound.RelayPackets | deps/relayer/relayer/naive-strategy.go:473-546 | sends if and only if all remote queries it makes are answered, then exactly the two queues of the phase, with the exact conditions for an error and for an empty batch; otherwise nothing |
| RelayRound.AckMessages | deps/relayer/relayer/naive-strategy.go:399-429 | one acknowledgement per sequence, in order, if and only if every query is answered |
| RelayRound.RelayAcknowledgements | deps/relayer/relayer/naive-strategy.go:385-470 | sends if and only if all remote queries it makes are answered, then exactly the two queues, with the exact conditions for an error and for an empty batch; otherwise nothing |
| RelayRound.Routing | deps/relayer/relayer/naive-strategy.go:479-504 | each pending packet has its receive at the peer or its timeout at its own chain, nothing lost and nothing else but the updates |
| Worker.ListStore | deps/relayer/relayer/naive-strategy.go:29-60 | a listing holds each member once, in an arbitrary order |
| Worker.RelayUnrelayedPackets | deps/relayer/relayer/strategies.go:369-447 | the code performs a packet phase or, when an answer is missing, sends nothing; an error that is not fatal never stops the worker, a fatal one always does |
| Worker.RelayUnrelayedAcks | deps/relayer/relayer/strategies.go:452-516 | the code performs an acknowledgement phase or, when an answer is missing, sends nothing; it is ok exactly when all queries were answered and nothing was rejected |
| Worker.Iterate | deps/relayer/relayer/strategies.go:348-354 | one turn of the loop; without a fatal packet error it goes on exactly when the acknowledgements went through, with one never |
| Worker.RelayUnrelayedPacketsAndAcks | deps/relayer/relayer/strategies.go:341-364 | the loop performs such turns, timing and greedy cuts included, and stops early exactly after the first one that does not go on |
| Worker.WorkerIsSafe | deps/relayer/relayer/strategies.go:341-364 | whatever fails and wherever it stops, the worker leaves a safe channel |
| Outcomes.PacketErrorIff | deps/relayer/relayer/naive-strategy.go:506-534 | a packet phase reports no error if and only if it is in time, in order, and the updates it needs fit |
| Outcomes.AckErrorIff | deps/relayer/relayer/naive-strategy.go:431-460 | an acknowledgement phase in which only empty batches are rejected reports no error if and only if the updates it needs fit |
| Outcomes.UndisturbedPasses | deps/relayer/relayer/strategies.go:341-364 | a worker whose queries are answered and that meets no fatal error performs a run of passes |
| Outcomes.UnorderedWorker | deps/relayer/relayer/strategies.go:341-364 | on an unordered channel, whatever fails and expires: the worker goes on if and only if a packet phase with a fatal kind of error had none, the acknowledgement queries are answered and the updates they need fit; each undisturbed pass clears both chains if and only if it is in time |
| Outcomes.OrderedWorker | deps/relayer/relayer/strategies.go:341-364 | on an ordered channel without debt the same equivalence holds, whatever expires or is closed, and there is never a debt |
| Outcomes.OversizedStops | deps/relayer/relayer/relayMsgs.go:189-216 | a concrete state in which the acknowledgement is relayed and both chains are clear, and the worker stops all the same |
| Outcomes.RejectedGoesOn | deps/relayer/relayer/strategies.go:433-443 | a concrete turn in which the packet batch is rejected: the worker goes on if and only if that error is not fatal |
| Supervisor.ApplyChannelFilterRule | deps/relayer/relayer/strategies.go:315-338 | keeps, in order, exactly the channels the rule passes |
| Supervisor.FilterOpenChannels | deps/relayer/relayer/strategies.go:298-311 | one inactive entry per identifier of an open channel, at most as many as channels |
| Supervisor.Start | deps/relayer/relayer/strategies.go:173-190 | the buffer is as large as the unfiltered list and so bounds the open map, which holds exactly the open channels that the allow or deny list admits |
| Supervisor.TakeKeepsInv | deps/relayer/relayer/strategies.go:193-264 | every step of supervisor or worker keeps one hand per active channel and the control facts |
| Supervisor.RunInv | deps/relayer/relayer/strategies.go:170-265 | the invariant holds in every state of every run |
| Supervisor.OneHandPerChannel | deps/relayer/relayer/strategies.go:210-216 | an active channel has exactly one worker or token, any other none |
| Supervisor.FinalSendNeverBlocks | deps/relayer/relayer/strategies.go:343-346 | a worker's final send always finds room, even after the supervisor has returned |
| Supervisor.SelectWaitsForSomeone | deps/relayer/relayer/strategies.go:218-228 | whenever the supervisor selects, a worker or a token exists |
| Supervisor.ExactlyOneError | deps/relayer/relayer/strategies.go:171-183 | one error before one close, and the supervisor never blocks on the error channel |
| Supervisor.CancelWaitsForWorkers | deps/relayer/relayer/strategies.go:224-227 | the cancellation error is sent only when no worker is before its done signal |
| Supervisor.RemovedStaysRemoved | deps/relayer/relayer/strategies.go:254-262 | a removed channel has no worker and no token, and never gets one again |
| Supervisor.RemovedIff | deps/relayer/relayer/strategies.go:254-262 | over every run a channel leaves the map exactly when the query about it says that it is not open, and none comes in |
| Supervisor.NotOpenIsRemoved | deps/relayer/relayer/strategies.go:254-262 | a channel found not open has no worker and no token ever after, and no worker is started for it |
| Supervisor.OpenIsRespawnable | deps/relayer/relayer/strategies.go:208-216 | a channel found open is still in the map and its next worker can start |
| Supervisor.Respawn | deps/relayer/relayer/strategies.go:208-262 | when a worker ends on an open channel there is a path back to the select with a new worker and nothing else changed |
| Supervisor.Retire | deps/relayer/relayer/strategies.go:195-262 | when a worker ends on a closed channel the supervisor goes on without it, and with the last channel it ends with one error |
| Supervisor.DrainsWhenCancelled | deps/relayer/relayer/strategies.go:224-227 | the supervisor drains only when its context is cancelled |
| Supervisor.WhyItReturns | deps/relayer/relayer/strategies.go:171-251 | it returns exactly on a failed query, an empty map, or a cancellation after all workers are done |
| Supervisor.NeverDeadlocked | deps/relayer/relayer/strategies.go:193-264 | until supervisor and workers have all ended some step can be taken |
| Supervisor.EndingTerminates | deps/relayer/relayer/strategies.go:224-227 | once the supervisor has stopped selecting, every step uses up a bounded rest |
| Denoms.ParsePrint | vendor/github.com/cosmos/ibc-go/v7/modules/apps/transfer/types/trace.go:29-106 | parsing and printing is the identity, except for one added slash exactly when everything is taken for the path |
| Denoms.SplitPoint | vendor/github.com/cosmos/ibc-go/v7/modules/apps/transfer/types/trace.go:80-106 | any denomination is split behind its longest run of pairs that end in channel identifiers, if it has three items |
| Denoms.ParseRender | vendor/github.com/cosmos/ibc-go/v7/modules/apps/transfer/types/trace.go:29-106 | a denomination made of hops and a base is parsed into exactly these hops and this base |
| Denoms.ChannelIds | vendor/github.com/cosmos/ibc-go/v7/modules/core/04-channel/types/keys.go:41-62 | channel-N is a valid identifier if and only if N fits 64 bits |
| Denoms.SplitJoin | vendor/github.com/cosmos/ibc-go/v7/modules/apps/transfer/types/trace.go:29-106 | splitting undoes joining items without slashes |
| Denoms.PathOnlyGainsSlash | vendor/github.com/cosmos/ibc-go/v7/modules/apps/transfer/types/trace.go:80-106 | a concrete denomination that comes back changed |
| Denoms.ReceivedIsSendable | deps/evmos/ibc/utils.go:88-138 | the received coin is the coin reported for sending the arrived denomination on |
| Denoms.SentCoinIs | deps/evmos/ibc/utils.go:116-138 | the coin reported as sent is the hash of the full denomination, the base where it is native, with the amount |
| Denoms.ReceivedCoinIs | deps/evmos/ibc/utils.go:88-113 | along any route from a native denomination the arriving coin is named by the hash of the reduced hops, by the base once it is home, and keeps its amount |
| Denoms.RoundTripIff | deps/evmos/ibc/utils.go:92-125 | there and straight back restores the denomination if and only if it does not start with the hop and its pair |
| Denoms.DoubledPrefixIsLost | deps/evmos/ibc/utils.go:92-125 | every denomination that starts with the hop and its pair loses both there and back |
| Denoms.RoundTripCoin | deps/evmos/ibc/utils.go:88-138 | under that condition the coin that comes back is the coin reported as sent |
| Denoms.TransferIsHop | deps/evmos/ibc/utils.go:92-125 | on a network of paired ends with slash-free names, one transfer is one step of word reduction |
| Denoms.HopKeepsReduced | deps/evmos/ibc/utils.go:92-125 | a transfer keeps a trace reduced |
| Denoms.RoundTrip | deps/evmos/ibc/utils.go:88-138 | from any reduced trace, over any end and back, comes the coin reported for the original |
| Denoms.TravelIsReduction | deps/evmos/ibc/utils.go:92-125 | along any route the denomination is the reduced trace of the hops, which lead to where it is |
| Denoms.ReachableIsReduced | deps/evmos/ibc/utils.go:92-125 | from a native denomination every reachable trace is reduced |
| Denoms.Unwind | deps/evmos/ibc/utils.go:88-138 | retracing any multi-hop route restores the original denomination |
| Denoms.UnwindCoin | deps/evmos/ibc/utils.go:88-138 | the coin arriving with the last hop of the way back is the coin reported as sent, amount included |
| Balances.QueryBalance | deps/relayer/relayer/query.go:241-283 | the nested loop shows every non-zero coin under the first matching trace, or the coins as they are |
| Balances.ShownIsFirst | deps/relayer/relayer/query.go:270-280 | a coin is renamed by the first trace that matches, and by none otherwise |
| Balances.EachShown | deps/relayer/relayer/query.go:264-282 | what is shown is the non-zero coins one by one, in order, each under its first matching trace |
| Balances.AmountsConserved | deps/relayer/relayer/query.go:264-282 | every non-zero coin appears once, in order and with its amount |
| Balances.ShownIsSendable | deps/relayer/relayer/query.go:270-274 | the shown name of a parsed trace is one under which the coin can be sent |
| Gas.GasMeter.ConsumeGas | vendor/github.com/cosmos/cosmos-sdk/store/types/gas.go:98-118 | the charge is kept even on a panic, sticks at the maximum on overflow, and panics exactly when the limit is exceeded |
| Gas.SigVerificationGasConsumer | deps/evmos/app/sigverify.go:50-76 | outcome and gas are those of scanning the selected leaves |
| Gas.ConsumeMultisignatureVerificationGas | deps/evmos/app/sigverify.go:79-103 | the same for a multisig key; the loop's signature index is the number of set bits passed |
| Gas.ScanIsTotal | deps/evmos/app/sigverify.go:50-103 | closed form: how many Ethereum leaves are paid for decides outcome and gas exactly, errors and panics included |
| Gas.AcceptedIff | deps/evmos/app/sigverify.go:50-103 | accepted if and only if all selected leaves are Ethereum keys and the limit covers 21000 each, which is then exactly what is charged |
| Gas.AcceptedTree | deps/evmos/app/sigverify.go:50-103 | over the key tree: accepted if and only if every key the bits select at any depth is an Ethereum key with its signature and the limit covers 21000 for each, which is what is charged |
| Gas.SingleKey | deps/evmos/app/sigverify.go:50-76 | Ethereum keys cost 21000 and are accepted, Ed25519 keys cost theirs and are rejected, all others are rejected for free |
| Gas.FlatCost | deps/evmos/app/sigverify.go:79-103 | a multisig of Ethereum keys has one leaf for every bit that is set |
| Gas.BitFromLeft | vendor/github.com/cosmos/cosmos-sdk/crypto/types/compact_bit_array.go:54-63 | a bit is counted from the most significant end of its byte |
| Gas.OnesIsCount | vendor/github.com/cosmos/cosmos-sdk/crypto/types/compact_bit_array.go:88-104 | a signature's position is the number of set bits before its key |
| Gas.CountOfNew | vendor/github.com/cosmos/cosmos-sdk/crypto/types/compact_bit_array.go:24-50 | an array made for n bits counts n bits, each with its byte |
| Gas.WellFormedIff | deps/evmos/app/sigverify.go:83-100 | every index is in bounds on the selected tree if and only if the bit arrays are well formed |
| Gas.NeverOutOfRange | deps/evmos/app/sigverify.go:83-100 | a well-formed tree never causes an index panic |
| Decimal.ChopIff | vendor/cosmossdk.io/math/dec.go:609-639 | chopping is rounding to the nearest whole, ties to even, for negative numbers too |
| Decimal.ChopMonotone | vendor/cosmossdk.io/math/dec.go:609-639 | rounding is monotone |
| Decimal.RoundedOnce | vendor/cosmossdk.io/math/dec.go:294-366 | a product is rounded once, half to even; a quotient is cut off at 36 digits first |
| Decimal.MulWhole | vendor/cosmossdk.io/math/dec.go:294-303 | multiplying by a whole number is exact |
| Vesting.GetVestedCoinsAt | utils/utils.go:161-184 | every coin becomes its vested amount, with the exact condition for a panic and the early and late branches |
| Vesting.EndedIff | utils/utils.go:168-173 | everything is released if and only if the end is reached or does not fit 64 bits |
| Vesting.RunningHasLength | utils/utils.go:175-176 | the scalar never divides by zero |
| Vesting.VestedBounds | utils/utils.go:161-184 | the vested amount lies between zero and the total |
| Vesting.VestedMonotone | utils/utils.go:161-184 | more time never vests less, across all branches |
| Vesting.VestedOutside | utils/utils.go:162-173 | nothing at or before the start and for negative times, everything from the end on |
| Vesting.VestedExact | utils/utils.go:175-181 | while vesting runs, the amount is the product with the 18-digit share of the time, both rounded half to even |
| Vesting.VestedAccurate | utils/utils.go:175-181 | the vested amount is within 1/2 + amount/10^18 of the exact share |
| Vesting.AccurateIff | utils/utils.go:161-184 | that bound holds for every amount if and only if the end fits 64 bits or is within rounding distance |
| Vesting.OverflowReleasesAll | utils/utils.go:168-173 | a wrapped end releases everything one second after the start, outside the bound |
| Coins.SafeAdd | deps/archway-main/vendor/github.com/cosmos/cosmos-sdk/types/coin.go:293-342 | the loop computes the merge, and panics exactly on unsorted input or when a sum exceeds 256 bits |
| Coins.OverflowsIff | deps/archway-main/vendor/github.com/cosmos/cosmos-sdk/types/coin.go:331-338 | for valid lists that happens exactly when the sum of some denomination does not fit |
| Coins.MergeAmount | deps/archway-main/vendor/github.com/cosmos/cosmos-sdk/types/coin.go:283-342 | addition adds the amounts of every denomination |
| Coins.MergeValid | deps/archway-main/vendor/github.com/cosmos/cosmos-sdk/types/coin.go:280-285 | the sum of valid lists is valid |
| Coins.Extensional | deps/archway-main/vendor/github.com/cosmos/cosmos-sdk/types/coin.go:209-254 | a valid list is determined by its amounts |
| Coins.SortedIff | deps/archway-main/vendor/github.com/cosmos/cosmos-sdk/types/coin.go:256-263 | a list counts as sorted if and only if no denomination comes after a later one, repeats allowed |
| Splitting.SplitCoins | deps/archway-main/pkg/coins.go:9-25 | the two stacks, or a panic exactly when the product, the truncation or the subtraction of some coin panics |
| Splitting.OverdrawnIff | deps/archway-main/pkg/coins.go:18-18 | a coin is overdrawn if and only if the excess of the ratio over one is worth a whole unit of it |
| Splitting.PanicsIff | deps/archway-main/pkg/coins.go:14-18 | for one coin and a ratio in [0, 1] the only panic is that of the product |
| Splitting.PanicsAtAnyRatio | deps/archway-main/pkg/coins.go:14-18 | the exact condition for a panic on one coin at any ratio, above one and negative included |
| Splitting.HugeAmountPanics | deps/archway-main/pkg/coins.go:16-16 | the largest amount cannot be split at the ratio one |
| Splitting.StackAmount | deps/archway-main/pkg/coins.go:13-22 | each stack holds, of every denomination, its part of the input's amount |
| Splitting.SplitAddsBack | deps/archway-main/pkg/coins.go:9-25 | for a ratio in [0, 1]: a panic if and only if some product exceeds 315 bits, both stacks valid, and their sum is the input list |
| Splitting.FirstStackIsFloor | deps/archway-main/pkg/coins.go:14-17 | the first stack is the floor of the share, per denomination |
| Splitting.SplitOfSum | deps/archway-main/pkg/coins.go:9-25 | splitting two bags and splitting their sum differ by at most one unit per denomination |
| Tps.TpsCounter.IncSuccess | deps/evmos/app/tps_counter.go:60-60 | the field stays the wrapped true count |
| Tps.TpsCounter.IncFailure | deps/evmos/app/tps_counter.go:61-61 | the field stays the wrapped true count |
| Tps.TpsCounter.BeginTick | deps/evmos/app/tps_counter.go:83-85 | the first load of a tick, increments may follow before the second |
| Tps.TpsCounter.EndTick | deps/evmos/app/tps_counter.go:86-109 | the second load; what is recorded is what the run's true counts determine |
| Tps.RecordBounds | deps/evmos/app/tps_counter.go:121-143 | one interval records at most the true difference, and exactly it, as one value, if and only if there is no wrap and fewer than 2^63 increments |
| Tps.RecordedSum | deps/evmos/app/tps_counter.go:76-111 | the recorded values sum to at most the count at the last tick, and to exactly it if and only if every interval is faithful |
| Tps.EveryRunIsSound | deps/evmos/app/tps_counter.go:60-143 | over every interleaving, for both counters: recorded at most read, read at most incremented, exact if and only if every interval is faithful |
| Tps.Realised | deps/evmos/app/tps_counter.go:60-111 | every rising list of counts is what the ticks of some run read |
| Tps.WrapLosesInterval | deps/evmos/app/tps_counter.go:121-131 | runs with their increments in which an interval of 2^63 or more, or one across the wrap, is lost as a whole |

## Left out

- The event processor, client, connection and channel handshakes of the relayer: their logic is in packages of their own.
- Retries, logging, per-send time limits and memo handling: they do not change what is relayed.
- Asynchronous acknowledgements, packet data and capabilities.
- Failing store queries within a worker run: `FailuresShrink` says that they only remove sequences; the worker of `Worker` gets its listings, while the remote queries behind them may fail.
- A send that is cut short by a finished context: batches are accepted or rejected by the chain.
- Wrap-around of the 64-bit transaction size in `send`, nil messages and encoding failures (all panic or need queues beyond memory).
- New packets sent within a pass: they are allowed between passes only.
- Panics inside a worker end it like a return; the supervisor's own query retries are one step.
- `PartiallySent`, `Ready` and the other result predicates of `relayMsgs.go`, `StringMapKeys` and the other helpers of `utils/utils.go`: they would only add easy members.
- SHA-256, bech32, protobuf, JSON and Unicode case folding: hash and folding are parameters, codecs do not appear.
- Amount parsing in `GetReceivedCoin` and `GetSentCoin`: amounts arrive parsed and validated.
- Validity of denominations in `Coins`: denominations are passed through unchanged, so only order and amounts are modelled.
- Gas meters other than the basic one, and the transaction-per-second log line of the counter with its 64-bit sum.
- The Stride keepers under `x/` and the application wiring are not part of this model.
