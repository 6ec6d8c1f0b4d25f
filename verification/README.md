# A verified model of the consensus-layer peer

This project models the hard parts of a small Ethereum consensus-layer peer and proves what they
promise:

- the RPC connection handler (`src/rpc/handler.rs`), a state machine with two substream tables, paired
  timer queues, a dial queue with a slot counter, retries, and a long `poll` with early returns;
- the peer manager (`src/peer_manager.rs`), with three peer sets, a history per peer and a cached average
  that have to agree, and a heartbeat that times out, selects, dials and refills;
- the discovery handshake between the peer manager, the main event loop and discovery
  (`src/discovery.rs`, `src/main.rs`);
- the response wire format (`src/rpc/codec/`) and the gossip message-id preimage (`src/main.rs`).

`dafny verify dfyconfig.toml` checks everything.

## How it is built

Each stateful component is described twice. A *machine* (`HandlerMachine.dfy`, `PeerMachine.dfy`,
`Discovery.dfy`, `Wire.dfy`) gives the meaning of every step as a function on values. A *class*
(`Handler.dfy`, `PeerManager.dfy`, `Discovery.dfy`, `EventLoop.dfy`, `Codec.dfy`) has the code's own fields,
loops, in-place updates and early returns, and each of its methods is proved to do exactly what the machine
says. Invariants and run theorems (`HandlerInvariant.dfy`, `HandlerRuns.dfy`, `HandlerOutlook.dfy`,
`HandlerDelivery.dfy`, `PeerRuns.dfy`, `PeerOutlook.dfy`, `Discovery.dfy`) are then about every run of the
machine, that is, about every order of calls, wake-ups, answers and failures. `HandlerTranscript.dfy` and
`PeerChronicle.dfy` tell what a run must have led to from its inputs alone, without the machine's own
operations, and prove that the machine gets there.

| file | content |
|---|---|
| `Messages.dfy` | message types and the table of expected responses |
| `HandlerMachine.dfy`, `HandlerInvariant.dfy`, `HandlerRuns.dfy`, `HandlerOutlook.dfy`, `HandlerDelivery.dfy`, `HandlerTranscript.dfy`, `Handler.dfy` | connection handler: machine, invariant, runs, what is still possible, order of events, what inputs lead to, class |
| `PeerMachine.dfy`, `PeerRuns.dfy`, `PeerOutlook.dfy`, `PeerChronicle.dfy`, `PeerManager.dfy` | peer manager: machine, runs, who is and may be dialled, what inputs lead to, class |
| `Discovery.dfy`, `EventLoop.dfy` | discovery, the handshake, and the event loop that closes it |
| `Layout.dfy`, `Wire.dfy`, `Codec.dfy` | byte layouts, wire format, codecs |
| `MessageId.dfy` | gossip message-id preimage |

Futures, sockets, timers, the clock, the network and map iteration order are choices of the environment:
parameters, nondeterministic values, or steps that are always possible. The number of responses a request
expects is an arbitrary natural, although the repository's own table only has 0 and 1. History that the code
does not keep (which requests were accepted, what was issued, sent, asked or lost) is ghost or never read.

The environment of the peer manager is a swarm that answers each dial it was given at most once, however
late, and closes only connections it opened; its books are separate from the manager's, and that they agree
is proved (`PeerRuns.SetsMirrorHistories` and the invariant behind it).

## What turned out false, and the exact condition

- **A retry keeps its dial slot.** `inject_dial_upgrade_error` re-queues a request without giving its slot
  back. The handler can still close gracefully if and only if it is not deactivated and no slot was kept
  (`HandlerOutlook.GracefulClosePossible`), and can still dial if and only if fewer than eight were and there
  is something to dial or may be (`HandlerOutlook.DiallingPossible`). All eight are lost by failing dials alone
  (`HandlerRuns.DiallingCanStarve`).
- **The target can be exceeded.** A dial that was given up may still be answered. The number of busy peers
  stays within the target if and only if no such answer arrives while the target is met
  (`PeerRuns.TargetRespected`); otherwise the next heartbeat may overflow, and a run that does is given
  (`PeerRuns.LateAnswerOverflows`).
- **A failed dial may be final.** A failure counts as a connection of length zero; it writes its peer off for
  good if and only if the average so far does not make up for it, so a first failure always does
  (`PeerOutlook.FailureIsFinal`). A peer is dialled in some continuation if and only if it is not written off
  (`PeerOutlook.DialledAgain`).
- **The peers redialled are not the best.** `get_best_peers_for_redial` is documented as choosing the best
  peers; its sort is ascending, so it takes the eligible peers with the *lowest* scores
  (`src/peer_manager.rs:361-386`). That is the documented choice if and only if there is nothing to choose
  (`PeerOutlook.BestOnlyWithoutChoice`); a run that takes a worse peer is given (`PeerOutlook.WorsePeerTaken`).
- **A failed discovery query ends discovery.** The manager goes on waiting for an answer that cannot come; no
  peer is learnt in any continuation (`Handshake.FailureSilencesDiscovery`), and this can happen on the very
  first query (`Handshake.FirstQueryMayFail`). A waiting manager may still get an answer if and only if no
  query failed (`Handshake.RoundMayEnd`).
- **A response that arrives in pieces is an error.** Of an encoded response, at most one byte is waited on,
  the whole is decoded, anything in between fails (`Wire.PartialResponse`).
- **Metadata with a stray bit panics**, and nothing else does (`Wire.PanicsExactlyOnStrayBits`); any 17 bytes
  that encode no metadata will do (`Wire.StrayBitsPanic`).
- **The inbound decoder produces metadata requests only** (`Wire.OnlyMetaDataRequests`).
- **An over-long varint length is cut, not refused** (`Layout.VarintCanonical` gives the exact condition,
  `Layout.OverlongIsCut` the input).

## Where code and standard disagree

An error response carries result byte 4, which the "Req/Resp interaction" section of the phase0
p2p-interface of consensus-specs v1.2.0 reserves (`src/rpc/methods.rs:52-57`). The code is followed.

## Model

| member | source | states |
|---|---|---|
| `HandlerInvariant.StepKeeps` | src/rpc/handler.rs:125-633 | every entry point and every action inside `poll`, in any order, keeps the handler's invariant: timers, substream logs, the place of each accepted request, slot accounting, events |
| `HandlerRuns.RunKeeps` | src/rpc/handler.rs:125-633 | the invariant holds after every run, by induction over its steps |
| `HandlerRuns.TimersMatchSubstreams` | src/rpc/handler.rs:218-252 | in every reachable state live timers and substreams match one to one in both tables, there are at most 32 inbound entries, and nothing is poisoned |
| `HandlerTranscript.HandlerFollowsItsInputs` | src/rpc/handler.rs:125-148 | over every run, told from its steps: the requests accepted are those sent while Active, in order, and a goodbye; they wait to be dialled in that order, retries behind; the retry counters count I/O errors in a row and all retries; and each step issues exactly the events of a table of its own |
| `HandlerTranscript.ActiveUntil` | src/rpc/handler.rs:209-247 | Active ends exactly by a shutdown, a goodbye from the peer, or a request that finds 32 substreams open |
| `HandlerTranscript.SubstreamsSendWhatTheyAreGiven` | src/rpc/handler.rs:417-506 | over every run, for each inbound substream and the request that opened it: what is handed to the wire is a prefix of what the application sent to it, with the error of a timeout; at most the number that request expects, none after an error; completed sends and remaining chunks make up that number, and it closes exactly after an error or the last |
| `HandlerTranscript.SubstreamsHaveStories` | src/rpc/handler.rs:218-252 | every open inbound substream was opened by a request of the run |
| `HandlerRuns.RequestsConserved` | src/rpc/handler.rs:125-148 | each accepted request is held exactly once by dial queue, swarm or outbound substream until done, and one that expects a response is not done before an event was issued for it |
| `HandlerTranscript.AnswersAreReported` | src/rpc/handler.rs:563-568 | over every run the k-th response that came in for a request is issued, and delivered, as the k-th event about it, as it came in and under its id, an error as a failure; all else are failures, afterwards; at most the expected number of responses |
| `HandlerDelivery.EventsInOrder` | src/rpc/handler.rs:354-358 | over every run, events issued are those delivered and those still queued, and queued events are delivered in the order in which they were queued |
| `HandlerTranscript.OpenWhileMoreToCome` | src/rpc/handler.rs:536-558 | unless deactivated, an outbound substream goes on waiting if and only if fewer responses than its request expects came in, and no error |
| `HandlerRuns.DialSlots` | src/rpc/handler.rs:309-328 | `dial_negotiated` is the number of dials under way plus all retries ever taken, never above 8; no decrement underflows; the retry counter is at most 2 |
| `HandlerRuns.RunOnward` | src/rpc/handler.rs:125-633 | how any later state compares with an earlier one: phases and id counters only advance, entries are old or newly numbered, retries accumulate, and outside Active the work measure falls with each progressing step |
| `HandlerRuns.ShutdownDrains` | src/rpc/handler.rs:360-368 | after Active is left it is never entered again, no inbound entry is added, and 3·queued + 2·negotiating + outbound + inbound bounds the dials, dial results and removals of every continuation |
| `HandlerRuns.OnlyShutdownDeactivates` | src/rpc/handler.rs:360-368 | over every run, Deactivated is reached if and only if the shutdown timer elapsed, which happens at most once |
| `HandlerRuns.IdsNeverReused` | src/rpc/handler.rs:251-252 | an id whose substream is gone never names a substream again |
| `HandlerOutlook.GracefulClosePossible` | src/rpc/handler.rs:621-630 | from any reachable state some continuation passes the idle test of `poll` and `connection_keep_alive` while shutting down if and only if no retry kept a slot (`dial_negotiated` is the number of dials under way) and the handler is not deactivated |
| `HandlerOutlook.NoGracefulClose` | src/rpc/handler.rs:317-323 | after one retry a slot is taken in every continuation |
| `HandlerOutlook.DiallingPossible` | src/rpc/handler.rs:611-619 | from any reachable state some continuation dials if and only if retries have not taken all eight slots and a request waits or may still be accepted |
| `HandlerRuns.DiallingCanStarve` | src/rpc/handler.rs:309-328 | an active handler with a waiting request that no continuation dials is reachable |
| `HandlerClass.RPCHandler.SendRequest` | src/rpc/handler.rs:141-148 | the fields become what the machine step says, which queues the request while Active and reports an error otherwise |
| `HandlerClass.RPCHandler.SendResponse` | src/rpc/handler.rs:150-166 | the fields become what the step with this id and this response makes of them; what that is, is told by the run theorems: unknown id ignored, error reported, this very response queued unless deactivated |
| `HandlerClass.RPCHandler.Shutdown` | src/rpc/handler.rs:125-139 | the dial queue is emptied from its back with one report per request, then the goodbye queued and the phase changed |
| `HandlerClass.RPCHandler.InjectFullyNegotiatedInbound` | src/rpc/handler.rs:205-253 | performs exactly the machine's step for this request, which opens a substream for the number of responses it expects, rejects it at 32 substreams, and shuts down on goodbye |
| `HandlerClass.RPCHandler.InjectFullyNegotiatedOutbound` | src/rpc/handler.rs:255-297 | performs exactly the machine's step; the slot counter does not underflow |
| `HandlerClass.RPCHandler.InjectDialUpgradeError` | src/rpc/handler.rs:309-333 | performs exactly the machine's step, with the retry path that keeps its slot |
| `HandlerClass.RPCHandler.ConnectionKeepAlive` | src/rpc/handler.rs:185-203 | the connection is given up exactly when deactivated, or shutting down with no request waiting or dialled, no substream open and no event queued |
| `HandlerMachine.SendMessage` | src/rpc/handler.rs:636-655 | the substream stays open exactly after a success that was sent and is not the last chunk; it was closed exactly if the send and the close succeeded |
| `HandlerClass.RPCHandler.ExpireInbound` | src/rpc/handler.rs:370-388 | only inbound expiries happen, each as the machine says |
| `HandlerClass.RPCHandler.ExpireOutbound` | src/rpc/handler.rs:390-412 | the first expired outbound timer ends the poll with its event; the "not in the books" branch is dead |
| `HandlerClass.RPCHandler.ServeSubstream` | src/rpc/handler.rs:418-505 | the inner service loop terminates, since each further turn shrinks the queue, and never meets a poisoned state |
| `HandlerClass.RPCHandler.ServeInbound` | src/rpc/handler.rs:414-510 | serving all substreams and removing the finished ones afterwards is a run of machine steps; no idle substream is left with something to send |
| `HandlerClass.RPCHandler.ServeOutbound` | src/rpc/handler.rs:512-609 | the outbound loop is a run of machine steps that ends at the first event, which is the one delivered, with both `unreachable!` sites dead; without an event every entry of the snapshot was visited, and a deactivated handler has only closing entries left |
| `HandlerClass.RPCHandler.DialNext` | src/rpc/handler.rs:611-619 | the longest waiting request is dialled if and only if there is one and a slot is free |
| `HandlerClass.RPCHandler.Poll` | src/rpc/handler.rs:354-633 | a poll is a run of machine steps with its sections in order and a returning step only at the end; its result is exactly the event delivered, the request dialled, or a close with its reason; nothing is poisoned on any return path; at Pending no idle substream has anything to send, no waiting request has a free slot, no entry of a deactivated handler awaits a response, and the event queue holds exactly the events issued in this poll, in order |
| `PeerRuns.StepKeeps` | src/peer_manager.rs:93-358 | every event, discovery result and heartbeat keeps sets, histories, averages and the swarm's books in agreement |
| `PeerRuns.SetsMirrorHistories` | src/peer_manager.rs:188-308 | in every reachable state connected, dialling and new peers are exactly those whose last entry says so, and all earlier entries are resolved |
| `PeerRuns.EventsNeverPanic` | src/peer_manager.rs:268-347 | a step fails if and only if it is a heartbeat with more busy peers than the target after its timeout pass; no `unwrap`, `expect` or `panic!` in the event handlers fires |
| `PeerChronicle.RecordsAreWhatHappened` | src/peer_manager.rs:188-308 | over every run, told from its steps and their times alone: a peer is on record if and only if it was found, with the address it was first found with, and its history is that of its dials, answers, failures, hang-ups and timeouts after more than 5000 ms, with every time stamp |
| `PeerChronicle.AverageIsMeanOfTimes` | src/peer_manager.rs:310-347 | over every run the cached average is the running floor mean of the times between the answers and hang-ups of the run, failures counting 0, and S − n(n−1)/2 ≤ n·average ≤ S for n of them lasting S |
| `PeerChronicle.AverageIsBetweenTimes` | src/peer_manager.rs:310-347 | the cached average lies between any bounds on those times |
| `RunningMean.MeanError` | src/peer_manager.rs:339-343 | the error bound of repeated floor means for every history |
| `RunningMean.NextMeanIs` | src/peer_manager.rs:339-346 | the update is the code's own formula |
| `PeerChronicle.EligibleLastedLong` | src/peer_manager.rs:360-378 | redial eligibility implies 3001·n ≤ S, S being the sum of those times |
| `PeerChronicle.GapFollows` | src/peer_manager.rs:99-114 | a heartbeat refills if and only if the peers to discover are fewer than four times those missing, and then leaves the gap after its dials; asking clears the number and starts the wait, discovered peers end it |
| `PeerOutlook.FailuresExclude` | src/peer_manager.rs:295-347 | from any reachable world in which a peer has n attempts lasting S in all, a continuation in which it only fails dials it k > 0 times only if 3001·(n + k − 1) ≤ S |
| `PeerRuns.WrittenOffForever` | src/peer_manager.rs:360-378 | a peer left Failed or Disconnected with average at most 3000 is never dialled in any continuation and its record never changes |
| `PeerOutlook.FailureIsFinal` | src/peer_manager.rs:295-347 | a failed dial writes its peer off if and only if there is no average yet or (n − 1)·average < 3001·n, in terms of the record before it; a first dial always does |
| `PeerOutlook.DialledAgain` | src/peer_manager.rs:216-231 | a peer on record is dialled in some continuation if and only if the program is up, its target is not zero, and the peer is not left Failed or Disconnected with an average of at most 3000 |
| `PeerOutlook.BestOnlyWithoutChoice` | src/peer_manager.rs:360-392 | the peers taken are the best-scoring ones, as documented, if and only if none or all eligible peers are wanted or all score the same |
| `PeerOutlook.WorsePeerTaken` | src/peer_manager.rs:379-386 | a reachable world in which the heartbeat takes a peer over one that scores twice as much |
| `PeerRuns.TimeoutNeedsAnswer` | src/peer_manager.rs:360-378 | a timed-out peer is not dialled in any continuation without an event for it |
| `PeerRuns.TimeoutPass` | src/peer_manager.rs:188-214 | after the pass whoever is still dialling was dialled at most 5000 ms ago, whoever was dropped is on record as Timeout at that moment, all else is unchanged |
| `PeerRuns.RefillMeetsTarget` | src/peer_manager.rs:107-119 | right after a refill busy peers plus peers to discover equal the target; the list dialled has no duplicates and nobody busy |
| `PeerRuns.TargetStep` | src/peer_manager.rs:107-119 | a step leaves the target respected if and only if it is not a late establishment with the target met |
| `PeerRuns.TargetRespected` | src/peer_manager.rs:107-119 | over whole runs the target is respected throughout if and only if that never happens, and then no heartbeat overflows |
| `PeerRuns.LateAnswerOverflows` | src/peer_manager.rs:108-110 | a run of legitimate events that ends in an overflow |
| `PeerManagerClass.SortByScore` | src/peer_manager.rs:379-383 | ascending by score and a permutation |
| `PeerManagerClass.PeerManager.OnConnectionEstablished` | src/peer_manager.rs:268-280 | panics exactly without a record of a dial; otherwise the machine's step at this time, which the chronicle of the run fixes |
| `PeerManagerClass.PeerManager.OnConnectionClosed` | src/peer_manager.rs:282-293 | panics exactly without a record of a dial; otherwise the entry is closed and averaged in |
| `PeerManagerClass.PeerManager.OnDialFailure` | src/peer_manager.rs:295-308 | as before for failures; an anonymous failure changes nothing |
| `PeerManagerClass.PeerManager.AddPeers` | src/peer_manager.rs:244-254 | exactly the unknown peers get an empty record and become new; the wait for discovery ends |
| `PeerManagerClass.PeerManager.DisconnectAll` | src/peer_manager.rs:450-455 | every connected peer's entry is closed and averaged in once, all else unchanged |
| `PeerManagerClass.PeerManager.TimeoutDiallingPeers` | src/peer_manager.rs:188-214 | the two loops, in any order of iteration, amount to the timeout pass of the machine |
| `PeerManagerClass.PeerManager.GetBestPeersForRedial` | src/peer_manager.rs:360-392 | as many distinct eligible peers as wanted and available, in ascending score order, nobody left out scoring below one chosen |
| `PeerManagerClass.PeerManager.GetNewPeersForDialling` | src/peer_manager.rs:233-242 | as many distinct new peers as wanted and available |
| `PeerManagerClass.PeerManager.GetPeersToDial` | src/peer_manager.rs:216-231 | the lists are an admissible choice, fit the gap, and exactly these peers get a Connecting entry and move to dialling; the subtraction is safe |
| `PeerManagerClass.PeerManager.Heartbeat` | src/peer_manager.rs:107-119 | one heartbeat is one step of the machine with what was dialled as its choice; it overflows exactly above the target |
| `PeerManagerClass.PeerManager.Poll` | src/peer_manager.rs:93-123 | a poll is a run of the machine: one request for discovery if it may, else one heartbeat per ready tick up to the first that dials |
| `DiscoveryClass.PeersLastWins` | src/discovery.rs:111-131 | a peer is reported exactly if some record names it, with address and port of the last such record if it has both |
| `DiscoveryClass.FirstSuccessReported` | src/discovery.rs:106-140 | exactly the first successful query is reported, with the peers of its records |
| `Handshake.PeersLearntWereFound` | src/main.rs:158-161 | over every interleaving, what is handed to the manager is what queries found, in order, but for what is in transit, and the manager knows exactly those peers, with the address that came first |
| `DiscoveryClass.Discovery.GetPeers` | src/discovery.rs:106-140 | failed queries are forgotten, the first success empties the collection and is reported |
| `DiscoveryClass.Discovery.Poll` | src/discovery.rs:171-182 | a pending count starts one query and looks at no answer; otherwise the queries are looked at |
| `Handshake.MoveKeeps` | src/main.rs:158-207 | every move of manager, loop and discovery keeps: tokens plus failures are 1 exactly while the manager waits |
| `Handshake.OneToken` | src/discovery.rs:88-110 | over all interleavings at most one token exists, a token implies waiting, and waiting without a token means exactly that a query failed |
| `Handshake.NothingDiscarded` | src/discovery.rs:106-110 | replacing the collection never discards a live query and a pending count is never overwritten |
| `Handshake.RoundsConserved` | src/main.rs:205-207 | requests asked are delivered, failed or under way, and are searched for in order with the number asked |
| `Handshake.FailureSilencesDiscovery` | src/discovery.rs:107-139 | after a failed query nothing is asked, searched or delivered and no peer becomes known, in any continuation |
| `Handshake.FirstQueryMayFail` | src/discovery.rs:107-139 | for every positive target that state is reachable with no peer known at all |
| `Handshake.RoundMayEnd` | src/main.rs:158-207 | while the manager waits, some continuation hands it a result if and only if no query failed |
| `Handshake.ManagerRunsItsOwnWorld` | src/main.rs:158-207 | whatever the interleaving, the manager sees a run of its own machine, so all results about it carry over |
| `EventLoopClass.EventLoop.OnSwarmEvent` | src/peer_manager.rs:129-156 | with a swarm that keeps its bargain no event makes the manager panic |
| `EventLoopClass.EventLoop.PollManager` | src/main.rs:202-213 | a poll of the manager puts at most one request into the loop and keeps the composed system reachable |
| `EventLoopClass.EventLoop.DispatchAsk` | src/main.rs:205-207 | the number handed to discovery is not on top of another |
| `EventLoopClass.EventLoop.PollDiscovery` | src/discovery.rs:165-182 | a poll of discovery is a move of the composed system; what it reports enters the loop |
| `EventLoopClass.EventLoop.HandOver` | src/main.rs:158-161 | discovered peers reach the manager and end its wait |
| `EventLoopClass.EventLoop.OneRound` | src/main.rs:158-207 | of the objects themselves: at most one round under way, and then the manager waits |
| `Layout.VarintRoundTrip` | src/rpc/codec/ssz_snappy.rs:51-53 | every 64-bit length is read back from its varint, whatever follows |
| `Layout.VarintCanonical` | src/rpc/codec/ssz_snappy.rs:115-131 | the bytes read are the encoding of the number returned if and only if what they spell fits 64 bits |
| `Layout.OverlongIsCut` | src/rpc/codec/ssz_snappy.rs:115-131 | for every length the encoding of a number 2^64 greater is read as that length |
| `Layout.U64Layout` | src/rpc/methods.rs:26-28 | a 64-bit number is its eight bytes, lowest first |
| `Layout.VarintLayout` | src/rpc/codec/ssz_snappy.rs:51-53 | a varint is groups of seven bits, lowest first, the top bit set on all but the last |
| `Layout.StatusLayout` | src/rpc/methods.rs:22-29 | the five fields lie at offsets 0, 4, 36, 44 and 76 of 84 bytes |
| `Layout.MetaDataLayout` | src/rpc/methods.rs:36-41 | the three fields lie at offsets 0, 8 and 16 of 17 bytes |
| `Layout.StatusRoundTrip` | src/rpc/methods.rs:22-29 | a status message is read back from its 84 bytes |
| `Layout.StatusCanonical` | src/rpc/methods.rs:22-29 | every 84 bytes are the encoding of the status read from them |
| `Layout.MetaDataRoundTrip` | src/rpc/methods.rs:36-41 | metadata is read back from its 17 bytes |
| `Layout.MetaDataCanonical` | src/rpc/methods.rs:36-41 | accepted metadata bytes are the encoding of what is read |
| `Wire.ResponseBytes` | src/rpc/codec/base.rs:41-49 | the first byte is 0 for a success and 4 for an error, the second 84, 8, 17 or 0 by kind, then the frames |
| `Wire.ErrorBytes` | src/rpc/methods.rs:52-57 | an error is the two bytes 4 and 0 |
| `Wire.PayloadBytes` | src/rpc/codec/ssz_snappy.rs:38-45 | what is framed, field by field at its offset |
| `Wire.WaitsExactly` | src/rpc/codec/ssz_snappy.rs:115-131 | from every decoder state and on all bytes, when the decoder waits for more rather than fails, and what it has consumed and remembers then |
| `Wire.SizeLimits` | src/rpc/codec/ssz_snappy.rs:190-212 | what is refused unread: a success of any length but 84, 8 or 17 by protocol, an error text over 10 MiB; otherwise how many bytes are looked at, what is consumed and what is remembered |
| `Wire.ResponseRoundTrip` | src/rpc/codec/base.rs:105-133 | for every protocol-matching response and for Error, decoding the encoded bytes with any tail returns the response, leaves exactly the tail and resets length and result byte |
| `Wire.StreamRoundTrip` | src/rpc/codec/base.rs:105-133 | a whole stream of responses is decoded one by one, leaving the tail |
| `Wire.PartialResponse` | src/rpc/codec/ssz_snappy.rs:184-213 | what every prefix of an encoded response decodes to |
| `Wire.AcceptsExactlySpellings` | src/rpc/codec/ssz_snappy.rs:184-267 | on arbitrary bytes the decoder returns a response if and only if its protocol carries it and the bytes spell it |
| `Wire.PanicsExactlyOnStrayBits` | src/rpc/codec/ssz_snappy.rs:251-267 | from every decoder state and on all bytes, decoding fails an `unwrap` if and only if it decodes metadata with one of the four unused bits set |
| `Wire.StrayBitsPanic` | src/rpc/codec/ssz_snappy.rs:262-264 | a framed payload of 17 bytes makes a metadata decoder panic if and only if it is the encoding of no metadata |
| `Wire.OverlongResponse` | src/rpc/codec/ssz_snappy.rs:184-213 | a response with an over-long length is decoded like the response itself |
| `Wire.RequestsAreRefused` | src/rpc/codec/ssz_snappy.rs:76-111 | an inbound decoder for another protocol waits exactly for the rest of a length, and else refuses |
| `Wire.RequestsAreConsumed` | src/rpc/codec/ssz_snappy.rs:76-111 | what it has consumed and remembers when it refuses |
| `Wire.OnlyMetaDataRequests` | src/rpc/codec/ssz_snappy.rs:68-112 | whatever arrives, in whatever pieces, a decoder for another protocol never returns a request, and one for metadata always returns that one |
| `CodecClass.HandleLength` | src/rpc/codec/ssz_snappy.rs:115-131 | a length is read once and remembered; an incomplete or bad one consumes nothing |
| `CodecClass.SszSnappyInboundCodec.Encode` | src/rpc/codec/ssz_snappy.rs:37-61 | appends length and frames; the size check never refuses a response |
| `CodecClass.SszSnappyInboundCodec.Decode` | src/rpc/codec/ssz_snappy.rs:68-112 | result, remembered length and remaining bytes are those of the specification |
| `CodecClass.BaseInboundCodec.Encode` | src/rpc/codec/base.rs:41-49 | the buffer holds this response and nothing else, whatever it held before; it starts with 0 for a success and is 4, 0 for an error |
| `CodecClass.SszSnappyOutboundCodec.Decode` | src/rpc/codec/ssz_snappy.rs:184-213 | outcome, remembered length and remaining bytes are those of the specification, failures included |
| `CodecClass.SszSnappyOutboundCodec.DecodeError` | src/rpc/codec/ssz_snappy.rs:219-248 | likewise for error responses, which may carry up to 256 bytes |
| `CodecClass.BaseOutboundCodec.Decode` | src/rpc/codec/base.rs:105-133 | outcome, both remembered values and remaining bytes are those of the specification |
| `CodecClass.Transmit` | src/rpc/codec/base.rs:41-133 | encoding into a buffer with anything in it and decoding with anything behind it returns the response, over the objects themselves |
| `MessageId.Prefix` | src/main.rs:52-63 | the appends build the preimage: four bytes of domain, eight of topic length, lowest first, topic, data |
| `MessageId.PreimageInjective` | src/main.rs:52-69 | equal preimages mean equal topic and equal data |
| `MessageId.DomainsApart` | src/main.rs:52-69 | equal preimages mean equal domains |
| `MessageId.GossipMessageId` | src/main.rs:65-69 | the id is the first twenty bytes of the digest of 1, 0, 0, 0, the topic length, topic and data |

## Left out

- Transport, noise, yamux, DNS, gossipsub configuration, swarm construction, ENR building and fork digests: wiring and calls into libraries.
- Snappy compression, SHA-256, tree hashing and signing: foreign code. Snappy framing is any pair of functions with the contract stated in `Wire.dfy`, which is shown to be satisfiable.
- Varints and SSZ are the formats of the `unsigned_varint` and `ssz` crates, modelled by their published behaviour.
- Timer deadlines: any live timer may expire at any time, so nothing is claimed about how long a response may take.
- Machine widths: substream ids, the running average and peer counts are unbounded, apart from the `u32` subtractions of the heartbeat, whose underflow is modelled as a crash (it is one in builds with overflow checks).
- One clock reading per heartbeat: the code reads the clock once per timeout pass and once per dialled peer.
- Reloading saved peer data and identities, logging and metrics: the peer manager starts without peer data.
- Redials that gossipsub makes on its own for explicit peers: the swarm answers only dials the manager decided on.
- The discv5 event stream and routing table: no effect on the handshake.
- Requests on the wire beyond what `Wire.OnlyMetaDataRequests` says: there is no round trip to state.
- `src/rpc/mod.rs` and `src/rpc/codec/mod.rs`: a queue and a one-case dispatch.
