# A verified model of the `core` runtime

`core` is a small asynchronous runtime on top of a libp2p swarm. Clients create command futures; a future sends its
command into a bounded queue when it is first polled, and registers a waker. One event loop runs the commands, keeps
them on an active list, and offers every swarm event to them in turn, each of them consuming it or passing it on; what
nobody consumes becomes an event for the frontend. Beside that, the runtime counts data channels against quotas, keeps
the reply channels of inbound requests until the frontend answers or they expire, and remembers relay addresses until
the relay can be asked for a reservation.

This project models those four machines and proves what they keep over every run. The code that changes things in place
is modelled as classes and loops (`Handler`, `KadCommands`, `PeerCommands`, `Quota`, `GuardFlow`, `PendingMap`,
`Boxes`, `EventLoop`); each method is proved against a mathematical step function, and the interleavings are transition systems
over the same step functions. `dafny verify dfyconfig.toml` checks everything.

## How the files fit together

| file | contents |
|---|---|
| `Types.dfy` | identifiers, results, swarm events |
| `Handler.dfy` | the result cell shared by a command and its future |
| `SwarmCalls.dfy` | the calls made on the swarm, and how often each is made |
| `Commands.dfy` | the command automata as values: what `run` and `on_event` do |
| `KadCommands.dfy`, `PeerCommands.dfy` | the commands as classes that update their fields in place |
| `Boxes.dfy` | the command objects behind one interface, as the loop holds them |
| `Queries.dfy` | what a command computes over its whole event sequence, against an independent verdict |
| `Bags.dfy`, `Chain.dfy` | the consume-or-pass chain over a list that shrinks by `swap_remove`, told without order |
| `PeerEvents.dfy` | connection counts, aggregated into peer events |
| `Runtime.dfy` | the command runtime as a transition system over any number of futures |
| `RuntimeInvariants.dfy`, `RuntimeCorrelation.dfy`, `LoopDiscipline.dfy` | what every step keeps |
| `RuntimeTheorems.dfy` | what holds in every reachable state |
| `Liveness.dfy` | fair infinite runs: stored results are returned |
| `LoopProgress.dfy` | a fair loop: queued commands are run, and those that complete in `run` are answered |
| `EarlyPolling.dfy` | the earlier way of polling, which lost wake-ups |
| `Quota.dfy`, `GuardFlow.dfy` | quota counters, and the guards on their way from opening to handle |
| `StreamLimits.dfy` | when the limits bound open channels, streams that were taken out included |
| `PendingMap.dfy`, `Replies.dfy` | pending reply channels, with expiry, and their way to the swarm |
| `Relay.dfy` | relay addresses from submission to reservation |
| `EventLoop.dfy` | the event loop, the queue and the futures as objects, and how they refine the machines |

## The command runtime as a transition system

A poll is two atomic steps, the sending and the checking half, and so is dropping a future, which cancels and then
releases its sender. The loop offers an event to one command per step. All steps interleave freely, so the loop can run
a command between the two halves of the poll that sent it. The queue holds 32 commands
(core/src/runtime/node.rs:13) and the inbound channel queue 16 (core/src/runtime/node.rs:15).

Assumptions about the environment are written into `Enabled` and into the `requires` of the theorems that need them:

- the swarm never issues an identifier twice, nor one that an event has already carried (`Runtime.IsFresh`);
- it reports, with each connection event, the number of connections then open (`PeerEvents.IsLegal`);
- a peer identifies itself only while connected, and bootstrap peers are registered before the loop starts
  (`Relay.Enabled`);
- the clock does not run backwards and purges are at most one interval apart (`Replies.Enabled`);
- a channel comes in only on a registered protocol (`GuardFlow.Enabled`);
- for liveness only: a woken task is polled unless the caller drops the future, and a poll that has begun is finished
  (`Liveness.IsFairTo`); the loop finishes what it has begun, and its `select!` does not pass over waiting commands for
  ever (`LoopProgress.IsLoopFair`).

## Where the code and what is said of it differ

- **At most one result.** Commands that recognise events by an identifier complete at most once
  (`RuntimeTheorems.IdentifiedCommandsCompleteOnce`). A dial or a disconnect may complete twice, in `run` and again in
  `on_event`; `Queries.AtMostOneAnswerIff` gives the exact condition, `Queries.RefusedDialMaySucceed` a case. What holds
  for all of them is that a poll returns the last result stored (`RuntimeTheorems.PollReturnsLastResult`).
- **Channel limits.** The limits are documented as numbers of channels per peer and protocol. `into_stream` drops the
  guard and lets the stream live on, so they bound handles (`GuardFlow.QuotaIsExact`), not streams: any number can be
  open at once (`StreamLimits.StreamsMayExceedLimit`). `StreamLimits.LimitBoundsChannelsIff` says exactly when the limit
  does hold for all open channels in every continuation; where guards alone can fill the limit, and new channels can
  still come, that is if and only if no stream of that kind that was taken out is open.
  `StreamLimits.TakingOutKeepsLimitIff` tells it before `into_stream` is called.
- **Pending ids.** They are 64-bit and wrap. `Replies.IdIsReusedAfterWrap` and `Replies.InsertOverwritesOnlyAfterWrap`
  say exactly when an id is given again and when a pending entry is overwritten; with fewer than 2^64 requests, never.
  `Replies.WrapOverwrites` is a run in which it happens.
- **A full queue.** The first poll reports any failed `try_send` as a closed command channel
  (core/src/client/future.rs:50-53). `RuntimeTheorems.RejectedExactlyWhenFull`: it fails exactly when the queue is full,
  and never because the loop has gone, so as long as the loop ends only by returning the report is never true;
  `RuntimeTheorems.FullQueueIsReportedAsClosed` is a run in which it is made.
- **The lost wake-up.** docs/bugfix/001-command-future-waker-hang.md:39-41 holds that only commands that complete in
  `run` were affected. `EarlyPolling.FirstPollStrandsBeforeFix` shows that every first poll that queued its command left
  its future without a waker, whatever the command; one that completes later got by only if its task was polled for
  another reason.

## Model

| member | source | states |
|---|---|---|
| `RuntimeTheorems.NoWakeupIsLost` | core/src/client/future.rs:44-61 | In every reachable interleaving, a future whose last poll returned Pending has been woken, or its waker is stored and no result has been; once a result has been stored it has been woken and a poll returns the last one stored. |
| `RuntimeTheorems.PollReturnsLastResult` | core/src/command/handler.rs:63-80 | In every interleaving, the checking half of a poll returns the last result stored before it, and Pending exactly if none was. |
| `RuntimeTheorems.ReturnedResultsAreTaken` | core/src/command/handler.rs:63-71 | In every run, the cell of a completed future is empty unless its command stored a further result, which an identified command never does. |
| `Liveness.StoredResultsAreReturned` | core/src/client/future.rs:44-61 | In every fair infinite run, a result stored while a future waits leads to a poll that returns the last result stored by then, unless the caller drops the future. |
| `Liveness.BegunPollCompletes` | core/src/client/future.rs:60 | In every fair infinite run, a poll begun after a result was stored ends with the last result stored. |
| `LoopProgress.QueuedCommandsAreRun` | core/src/runtime/event_loop.rs:141-168 | In every infinite run with a fair loop, every command that is ever queued is run. |
| `LoopProgress.AnswersInRunAreReturned` | core/src/runtime/event_loop.rs:147-149 | With a fair loop and fair polling, the future of a queued command that completes in `run` is dropped, or a poll returns the last result stored. |
| `LoopProgress.DefaultsAnswerInRun` | core/src/command/handler.rs:114-121 | Every command that keeps the default `on_event` completes in `run`. |
| `EarlyPolling.FirstPollStrandsBeforeFix` | docs/bugfix/001-command-future-waker-hang.md:26-37 | In every run of the earlier polling, a first poll that queues its command leaves its task unscheduled and its waker stored nowhere, for every command. |
| `EarlyPolling.EarlyPendingStrands` | docs/bugfix/001-command-future-waker-hang.md:45-61 | The reported hang as a run of five steps: the result is stored and the future is stranded. |
| `EarlyPolling.StrandedForever` | docs/bugfix/001-command-future-waker-hang.md:45-61 | Whatever steps follow, a stranded future stays so, result and all, until somebody polls or drops it unasked. |
| `RuntimeTheorems.CompletedFutureIsItsFold` | core/src/runtime/event_loop.rs:221-248 | No cross-talk: a completed future of an identified command returned the one result that folding its command over the events carrying its identifier stores, and its command stored nothing else. |
| `RuntimeTheorems.CompletedFutureIsItsVerdict` | core/src/command/req_resp/send_request.rs:57-91 | That result is the reference verdict on the command's own steps, up to the one that ended its query. |
| `RuntimeTheorems.EventsAreDelivered` | core/src/runtime/event_loop.rs:221-248 | Delivery: whenever no event is in the chain, the results of every started identified command whose future is alive are those of the fold of all events under its identifier. |
| `RuntimeTheorems.EndedQueryIsAnswered` | core/src/command/kad/get_providers.rs:53-117 | So the command has stored exactly the verdict on its own steps once one of them has ended its query, and nothing before. |
| `RuntimeTheorems.RejectedExactlyWhenFull` | core/src/client/future.rs:48-55 | In every run a first poll fails to send if and only if the queue holds 32 commands; the loop has never gone, and the queue never holds more. |
| `RuntimeTheorems.FullQueueIsReportedAsClosed` | core/src/client/future.rs:50-53 | A reachable state in which a poll reports a closed channel while the loop is at the top of an iteration. |
| `RuntimeTheorems.IdentifiedCommandsCompleteOnce` | core/src/command/kad/get_providers.rs:53-117 | In every run an identified command stores at most one result, dropped or not; if the swarm refused it, one error and nothing afterwards. |
| `RuntimeTheorems.OfferTouchesOwnerOnly` | core/src/runtime/event_loop.rs:229-237 | Offering an event with an identifier changes neither the state nor the results of any command that waits for another one. |
| `RuntimeTheorems.CancellationBoundsActive` | core/src/runtime/event_loop.rs:142-144 | Right after pruning, active commands map one-to-one into futures not dropped, so there are at most as many. |
| `RuntimeTheorems.CancelledAreOfferedNothing` | core/src/runtime/event_loop.rs:142-168 | A command cancelled before an iteration starts is offered no event in it. |
| `RuntimeTheorems.ShutdownStrandsNobody` | core/src/runtime/event_loop.rs:147-153 | When the loop has returned no future is alive, the queue is empty, and every command still active is cancelled. |
| `RuntimeTheorems.ChainEndsAsUndisturbed` | core/src/runtime/event_loop.rs:221-238 | However polls, drops and new futures interleave with it, the chain leaves the list and the event, and has stored the results, of the undisturbed walk over the list at its start, whose identifiers are distinct. |
| `RuntimeTheorems.RoutingIgnoresOrderInEveryRun` | core/src/runtime/event_loop.rs:221-247 | In every run, the results the chain stores, the waiting commands that remain and what is left of the event are those of walking any permutation of the list. |
| `RuntimeTheorems.ConnectionServesAllDials` | core/src/command/dial.rs:34-55 | In every run, when a connection event has been through the chain no dial of that peer is active, each that was has been given Ok, and the event goes on to the frontend. |
| `RuntimeTheorems.PeerEventsAlternateInEveryRun` | core/src/runtime/event_loop.rs:294-306 | In every run under correct connection counts the peer events sent for each peer alternate, beginning with connected, and the last says whether the peer is connected. |
| `RuntimeTheorems.InvKept` | core/src/runtime/event_loop.rs:141-168 | Every step of futures, clients, loop and swarm keeps all invariants. |
| `RuntimeInvariants.LinearKept` | core/src/client/future.rs:44-55 | Every step keeps each command in one place: with its future, queued, held by the loop, or active. |
| `RuntimeInvariants.CellsConsistentKept` | core/src/command/handler.rs:63-90 | Every step keeps, for every result cell: cancelled exactly if its future is dropped, no wake-up lost, the last result held. |
| `RuntimeCorrelation.CorrelatedKept` | core/src/runtime/event_loop.rs:221-238 | Every step keeps each active identified command equal to the fold of the events it has been offered, and each completed one settled with what the fold of all of them stores. |
| `LoopDiscipline.DisciplinedKept` | core/src/runtime/event_loop.rs:141-168 | Every step keeps the loop's discipline: pruning, quiet shutdown, a bounded queue, the chain on track, dials served, peer events logged. |
| `LoopDiscipline.ClientStepsLeaveLoop` | core/src/client/future.rs:44-74 | Polling, dropping and creating futures change nothing the loop owns. |
| `Chain.EachIsOfferedOnce` | core/src/runtime/event_loop.rs:223-238 | The commands offered an event and those never reached are, as a multiset, the list from the start index; none is left unreached unless the event was consumed; what is left over is the event that came in. |
| `Chain.SurvivorsAreTheKept` | core/src/runtime/event_loop.rs:223-238 | As multisets, the settled part of the surviving list is what the offered commands became, and the results are theirs. |
| `Chain.WaitingAfterChain` | core/src/runtime/event_loop.rs:223-238 | The waiting commands that remain are those that keep waiting when each is offered the event on its own. |
| `Chain.StoredByChain` | core/src/runtime/event_loop.rs:223-238 | The results stored are those each command stores when offered the event on its own. |
| `Chain.LeftoverOfChain` | core/src/runtime/event_loop.rs:240-243 | The event is left over exactly if no command in the list consumes it. |
| `Chain.RoutingIgnoresOrder` | core/src/runtime/event_loop.rs:221-247 | For any permutation of the list: the same results, the same waiting commands, the same event left over; only finished commands with the default `on_event` may differ. |
| `Chain.ConnectionCompletesDials` | core/src/command/dial.rs:34-55 | One connection event leaves no dial of its peer, gives each Ok, leaves every other dial as often as it was, and is left over. |
| `Commands.OnlyOwnEventsAreConsumed` | core/src/command/handler.rs:16-22 | A command that consumes an event does so because the event carries its identifier; an event passed on is unchanged. |
| `Commands.ForeignEventsChangeNothing` | core/src/command/handler.rs:114-121 | An event with another identifier leaves every command as it was; only commands with the default `on_event` leave the list, storing nothing. |
| `Commands.CorrelatedCommandsKeepTheirKey` | core/src/command/req_resp/send_request.rs:57-91 | An identified command keeps its identifier for life, ignores other events, and stores a result exactly when it leaves. |
| `Commands.RunStartsOrRefuses` | core/src/command/kad/bootstrap.rs:46-59 | `run` of a new identified command takes no identifier if and only if it is a bootstrap, put or provide that the swarm refuses, and then stores the error belonging to it; otherwise it takes the issued one and stores nothing. |
| `Commands.QueriesAreStarted` | core/src/command/kad/get_record.rs:43-50 | A query command starts one query in `run`, of its own kind. |
| `Commands.SendsOnce` | core/src/command/req_resp/send_request.rs:39-55 | Requests and responses are handed to the swarm by the first `run`, unchanged, and by no other; a second `run` stores an error. |
| `Commands.ReplyTellsAcceptance` | core/src/command/req_resp/send_response.rs:34-51 | The caller of a reply is told Ok if and only if the swarm took the response, and a closed channel otherwise. |
| `Commands.DialTellsRefusal` | core/src/command/dial.rs:24-32 | In `run` a dial stores Ok exactly for a connected peer, which it does not dial, the refusal exactly if dialling is refused, and otherwise waits, having dialled once. |
| `Commands.DisconnectTellsMissing` | core/src/command/disconnect.rs:25-33 | In `run` a disconnect waits exactly if there was a connection to close, and otherwise names the peer that was not connected. |
| `Commands.InfrastructureIsRegistered` | core/src/command/add_infrastructure_peer.rs:35-69 | Always Ok; each address made known as often as listed, routed exactly for a Kademlia server, the peer dialled once exactly if not connected, no other peer touched; all addresses handed out for reservations exactly as relay server with the client on, once. |
| `Commands.OthersWantNoReservation` | core/src/command/handler.rs:124-128 | No other command asks for reservations. |
| `Commands.ImmediatesAnswer` | core/src/command/is_connected.rs:27-29 | An immediate command stores its answer in `run`. |
| `Commands.FailuresAreToldApart` | core/src/command/req_resp/send_request.rs:95-104 | Outbound failures map one-to-one to network failures, each under its own name, the rest unknown. |
| `Queries.QueryRefinesVerdict` | core/src/command/kad/get_providers.rs:53-117 | For any number of steps: nothing is stored before the step that ends the query, and exactly the reference verdict on the steps up to it afterwards, whatever follows. |
| `Queries.EndingStepStoresVerdict` | core/src/command/kad/put_record.rs:47-87 | The step that ends a query stores its verdict: for put and provide the last step alone decides; for bootstrap, providers and closest peers the first error does, else all batches are returned; statistics are those of every step. |
| `Queries.WaitingAccumulates` | core/src/command/kad/get_closest_peers.rs:56-113 | Before the ending step a query has stored nothing and holds exactly what its steps brought: first record, all peers, all statistics. |
| `Queries.CompletedStaysCompleted` | core/src/command/kad/bootstrap.rs:61-121 | Once a query has completed, later events change nothing. |
| `Queries.OnlyOwnStepsMatter` | core/src/command/kad/start_provide.rs:43-83 | Folding over any events equals folding over the command's own steps among them. |
| `Queries.RecordLookup` | core/src/command/kad/get_record.rs:52-118 | Over any steps ending in a last one, the result is Ok exactly if some step found a record, and then the first one found, with all statistics; no error ends the query earlier. |
| `Queries.FirstRecord` | core/src/command/kad/get_record.rs:66-80 | None exactly if no step found a record; otherwise a record found by a step before which none was. |
| `Queries.AnsweredOnce` | core/src/command/disconnect.rs:35-53 | Over any events, a dial or disconnect stores one result in `on_event` exactly if one of them answers it. |
| `Queries.FirstAnswerDecides` | core/src/command/dial.rs:40-54 | Over any events, what a dial or disconnect stores is decided by its first answering event: Ok for a connection or the last closing, the error as it is for a failed connection; nothing without one. |
| `Queries.AtMostOneAnswerIff` | core/src/command/dial.rs:24-55 | Counting `run`, a dial or disconnect completes at most once if and only if `run` left it open or no later event answers it. |
| `Queries.RefusedDialMaySucceed` | core/src/command/dial.rs:29-31 | A refused dial of a peer that then connects stores an error and afterwards Ok. |
| `PeerEvents.PeerEventsAlternate` | core/src/runtime/event_loop.rs:294-306 | For every legal history of connection counts the peer events of each peer alternate, beginning with connected; the last one says whether the count is positive. |
| `Quota.AcquireExact` | core/src/data_channel.rs:253-259 | Taking a guard moves counters that count the live guards to counters that count them with the new one. |
| `Quota.ReleaseExact` | core/src/data_channel.rs:287-306 | Dropping a live guard leaves the counters of the remaining ones; the counts it lowers were positive, so no subtraction saturates. |
| `Quota.AdmissionIsExact` | core/src/data_channel.rs:236-252 | Admission is refused exactly if live guards fill the limit of peer and direction or of the protocol. |
| `Quota.CountersAreUnique` | core/src/data_channel.rs:287-306 | The counters depend on the live guards alone, in whatever order they came and went, and are empty without any. |
| `Quota.SumsAgree` | core/src/data_channel.rs:214-219 | The inbound and outbound counters together sum to the number of live guards, as the per-protocol counters do. |
| `Quota.ChannelRegistry.constructor` | core/src/data_channel.rs:222-227 | A new registry counts nothing. |
| `Quota.ChannelRegistry.TryAcquire` | core/src/data_channel.rs:230-266 | A guard is issued exactly if the live guards leave room in both limits; a refused call changes nothing; exactness is kept. |
| `Quota.ChannelRegistry.Drop` | core/src/data_channel.rs:287-306 | Dropping a live guard leaves the exact counters of the others. |
| `GuardFlow.QuotaIsExact` | core/src/data_channel.rs:214-306 | In every run each counter is the number of live guards it stands for, within its limit, present exactly if positive, and the sums agree. |
| `GuardFlow.GuardsAreLinear` | core/src/client/data_channel_open.rs:69-139 | In every run a live guard is held once, by one opening future, the queue or one handle; any other guard issued has been dropped exactly once, drops being counted unconditionally, and is held nowhere; the queue holds at most 16. |
| `GuardFlow.GuardsAreWhatWasAskedFor` | core/src/client/data_channel_open.rs:92-111 | In every run an opening future holds the guard of an outbound channel to its own peer and protocol, and queued channels are inbound. |
| `GuardFlow.NothingHeldNothingCounted` | core/src/data_channel.rs:287-306 | When no future is opening, the queue is empty and no handle is left, all counters are empty. |
| `GuardFlow.PanicsOnlyAfterReady` | core/src/client/data_channel_open.rs:85 | Polling panics only if an earlier poll of the same future returned Ready. |
| `StreamLimits.StreamsMayExceedLimit` | core/src/data_channel.rs:109-111 | Under any limits that admit a channel, any number of streams of one peer and protocol can be open at once, with all counters empty. |
| `StreamLimits.MostOpenIsExact` | core/src/data_channel.rs:186-192 | If no more streams of a kind are taken out, no continuation has more open channels of that kind than the stated bound, and some continuation has as many. |
| `StreamLimits.LimitBoundsChannelsIff` | core/src/data_channel.rs:109-111 | In every reachable state: open channels of a peer and direction, or of a protocol, stay within the limit in every continuation without `into_stream` of that kind if and only if the most guards that can be live leave room for the streams now open, or, if no more can come, there are not too many now; always if none is open, and only then where guards can fill the limit. |
| `StreamLimits.TakingOutKeepsLimitIff` | core/src/data_channel.rs:109-111 | The same for the state after an `into_stream`, as a condition on the state before it. |
| `GuardFlow.InvKept` | core/src/client/data_channel_open.rs:69-139 | Every step of opening, arrival, hand-off and dropping keeps counters exact and guards linear. |
| `GuardFlow.PollRefinesFlow` | core/src/client/data_channel_open.rs:69-139 | What polling the future object does is the polling step of the machine. |
| `GuardFlow.OpenFailuresAreTold` | core/src/client/data_channel_open.rs:92-155 | A poll fails with the limit error if and only if live guards fill a limit when the guard is asked for; otherwise timeout, missing support, broken stream and the rest are told each under its own name, and success with the channel whose guard was taken. |
| `GuardFlow.ArrivalRefinesFlow` | core/src/runtime/event_loop.rs:174-204 | What handling an inbound channel does is its arrival in the machine. |
| `GuardFlow.RefusalLeavesCounters` | core/src/runtime/event_loop.rs:175-203 | A channel that is turned away, for whatever reason, leaves all counters as they were. |
| `GuardFlow.DataChannelOpenFuture.constructor` | core/src/client/data_channel_open.rs:47-63 | A new future holds no guard. |
| `GuardFlow.DataChannelOpenFuture.Poll` | core/src/client/data_channel_open.rs:69-139 | The first poll takes the quota or fails with the limit error; the guard stays while opening, goes into the handle, or is dropped with the error or timeout; only a finished future panics. |
| `GuardFlow.DataChannelOpenFuture.Drop` | core/src/client/data_channel_open.rs:25-26 | Dropping the future early drops the guard it holds, and no other. |
| `GuardFlow.InboundChannels.HandleInboundChannel` | core/src/runtime/event_loop.rs:174-204 | Over quota, or with a full or closed queue, nothing is left behind; otherwise guard and channel are queued together. |
| `PendingMap.PurgeSplits` | core/src/pending_map.rs:92-97 | The entries are the expired and the unexpired ones, without overlap. |
| `PendingMap.PendingMap.Insert` | core/src/pending_map.rs:64-72 | The value is stored with the time of insertion; nothing else changes. |
| `PendingMap.PendingMap.Take` | core/src/pending_map.rs:74-76 | The entry is removed and its value returned, so a second take finds nothing. |
| `PendingMap.PendingMap.PurgeExpired` | core/src/pending_map.rs:87-97 | Exactly the entries of age at least the time to live are removed, and their number is returned. |
| `Replies.ChannelIsInOnePlace` | core/src/client/req_resp.rs:58-70 | In every interleaving, the response channel of each inbound request is in exactly one of pending map, unsent future, queue, submitted, gone. |
| `Replies.AtMostOneReply` | core/src/command/req_resp/send_response.rs:34-51 | At most one response per inbound request reaches the swarm, and none for a channel dropped or still queued. |
| `Replies.RepliesAreFinal` | core/src/command/req_resp/send_response.rs:34-51 | No step submits a second response for a channel already submitted or dropped. |
| `Replies.CallerLearnsTheTruth` | core/src/command/req_resp/send_response.rs:41-50 | In every run, the reply command at the head of the queue tells its caller Ok if and only if the response of that request reaches the swarm with it, and a closed channel if and only if the channel is lost with it. |
| `Replies.IdIsReusedAfterWrap` | core/src/runtime/event_loop.rs:250-252 | The next pending id was given before if and only if 2^64 requests have arrived. |
| `Replies.InsertOverwritesOnlyAfterWrap` | core/src/runtime/event_loop.rs:316-321 | An insertion overwrites an entry if and only if the request a multiple of 2^64 before is still pending; with fewer requests never. |
| `Replies.WrapOverwrites` | core/src/runtime/event_loop.rs:316-321 | A run of 2^64 requests after which the next one overwrites the first one's entry and loses its channel. |
| `Replies.EntriesHaveBoundedLife` | core/src/pending_map.rs:48-62 | In every run no untaken entry is older than the time to live plus the purge interval. |
| `Replies.YoungEntriesAreKept` | core/src/pending_map.rs:92-97 | An entry younger than the time to live is lost only by being taken, or overwritten after a wrap. |
| `Replies.LinearKept` | core/src/client/req_resp.rs:58-70 | Every step keeps every response channel in its one place. |
| `Relay.ReservationsAreConserved` | core/src/runtime/event_loop.rs:379-393 | Over every run, per peer: addresses submitted are, as a multiset, those waiting and those asked for; the swarm was asked for exactly the latter, once each; without relay client nothing is kept or asked; a peer with a matching identify in its current connection has nothing waiting. |
| `Relay.SubmissionsWaitUnlessConnected` | core/src/runtime/event_loop.rs:208-217 | What is submitted for a connected peer is asked for at once, all of it; for an unconnected one it waits, all of it, and nothing is asked; other peers are not concerned. |
| `Relay.WaitingIsAskedOnIdentify` | core/src/runtime/event_loop.rs:379-393 | What waits for a peer is asked for, all of it, when that peer identifies itself with the right protocol, and not otherwise. |
| `Relay.AskedOnlyOfConnected` | core/src/runtime/event_loop.rs:208-217 | Nothing is asked at any other step, nor ever of a peer that is not connected. |
| `Relay.RelayAddrIsComplete` | core/src/runtime/event_loop.rs:602-611 | A relay address extends the submitted one, names a peer before its end and ends in a circuit; the submitted peer is added if and only if the address named none. |
| `Relay.InvKept` | core/src/runtime/event_loop.rs:206-219 | Every step keeps reservations conserved for every peer. |
| `Handler.ResultHandle.constructor` | core/src/command/handler.rs:36-61 | A new cell has no result and no waker and is not cancelled. |
| `Handler.ResultHandle.Poll` | core/src/command/handler.rs:63-71 | The result is taken if there is one; otherwise the caller's waker replaces the stored one. |
| `Handler.ResultHandle.Finish` | core/src/command/handler.rs:74-80 | The result replaces an earlier one, and a stored waker is used up and its task scheduled. |
| `Handler.ResultsAreHandedOutOnce` | core/src/command/handler.rs:63-85 | A stored result is handed out by one poll, the last one stored wins, a poll that finds none leaves its own waker, storing uses it up, cancelling touches neither. |
| `KadCommands.GetRecordCommand.Run` | core/src/command/kad/get_record.rs:43-50 | The command starts under the issued id and stores nothing. |
| `KadCommands.GetRecordCommand.OnEvent` | core/src/command/kad/get_record.rs:52-118 | In place, the step of the record automaton, including what is stored and who is woken. |
| `KadCommands.GetProvidersCommand.Run` | core/src/command/kad/get_providers.rs:44-51 | The command starts under the issued id and stores nothing. |
| `KadCommands.GetProvidersCommand.OnEvent` | core/src/command/kad/get_providers.rs:53-117 | In place, the step of the accumulating providers automaton. |
| `KadCommands.GetClosestPeersCommand.Run` | core/src/command/kad/get_closest_peers.rs:44-54 | The command starts under the issued id and stores nothing. |
| `KadCommands.GetClosestPeersCommand.OnEvent` | core/src/command/kad/get_closest_peers.rs:56-113 | In place, the step of the accumulating closest-peers automaton. |
| `KadCommands.BootstrapCommand.Run` | core/src/command/kad/bootstrap.rs:46-59 | Started under the issued id, or refused with an error and without id. |
| `KadCommands.BootstrapCommand.OnEvent` | core/src/command/kad/bootstrap.rs:61-121 | In place, the step of the bootstrap automaton. |
| `KadCommands.PutRecordCommand.Run` | core/src/command/kad/put_record.rs:32-45 | Started under the issued id, or refused with an error and without id. |
| `KadCommands.PutRecordCommand.OnEvent` | core/src/command/kad/put_record.rs:47-87 | In place, the step of the put automaton. |
| `KadCommands.StartProvideCommand.Run` | core/src/command/kad/start_provide.rs:32-41 | Started under the issued id, or refused with an error and without id. |
| `KadCommands.StartProvideCommand.OnEvent` | core/src/command/kad/start_provide.rs:43-83 | In place, the step of the provide automaton. |
| `PeerCommands.SendRequestCommand.Run` | core/src/command/req_resp/send_request.rs:39-55 | The request is taken and sent once; a second `run` stores an error. |
| `PeerCommands.SendRequestCommand.OnEvent` | core/src/command/req_resp/send_request.rs:57-104 | In place, the step of the request automaton: only a response or failure with its id from its peer ends it. |
| `PeerCommands.SendResponseCommand.Run` | core/src/command/req_resp/send_response.rs:34-51 | The channel is used up, whatever the outcome; a second `run` stores an error. |
| `PeerCommands.DialCommand.Run` | core/src/command/dial.rs:24-32 | Ok if connected; otherwise the peer is dialled, with an error if that is refused, and open if not. |
| `PeerCommands.DialCommand.OnEvent` | core/src/command/dial.rs:34-55 | Completes on the peer's connection or failure without consuming the event. |
| `PeerCommands.DisconnectCommand.Run` | core/src/command/disconnect.rs:25-33 | An error if not connected, otherwise open. |
| `PeerCommands.DisconnectCommand.OnEvent` | core/src/command/disconnect.rs:35-53 | Completes when the peer's last connection closes, without consuming the event. |
| `PeerCommands.AddInfrastructurePeerCommand.Run` | core/src/command/add_infrastructure_peer.rs:35-63 | Every address is registered in order, in the routing table too for a Kademlia server; with relay role and client on, all are kept for a reservation; an unconnected peer is dialled; the command is done. |
| `PeerCommands.AddInfrastructurePeerCommand.TakeRelayReservationRequest` | core/src/command/add_infrastructure_peer.rs:65-69 | The addresses are handed out once. |
| `SwarmCalls.RegistrationsAreExact` | core/src/command/add_infrastructure_peer.rs:36-44 | Counted: each address of the peer made known as often as listed, routed as often if asked, nothing for others. |
| `SwarmCalls.IntroductionsAreExact` | core/src/runtime/event_loop.rs:380-386 | Counted: each listed address made known and routed as often as listed, nothing for others. |
| `SwarmCalls.BootstrapCallsAreExact` | core/src/runtime/event_loop.rs:119-129 | Counted: each bootstrap peer made known, routed and dialled as often as configured. |
| `Boxes.Boxed.Run` | core/src/command/handler.rs:131-153 | Whatever command is in the box, running it is running that command object. |
| `Boxes.Boxed.OnEvent` | core/src/command/handler.rs:114-121 | Whatever command is in the box, it is that object which is offered the event; one without an `on_event` of its own passes it on and leaves. |
| `EventLoop.CommandTask.RunBoxed` | core/src/command/handler.rs:190-192 | The command object in the box runs against its own result cell; the swarm is told what that command tells it. |
| `EventLoop.CommandTask.OnEventBoxed` | core/src/command/handler.rs:194-200 | The command object in the box is offered the event, against its own result cell. |
| `EventLoop.CommandTask.TakeRelayReservationRequest` | core/src/command/handler.rs:202-206 | The relay addresses of the command object in the box, handed out once. |
| `EventLoop.CellAfterStep` | core/src/runtime/event_loop.rs:229-231 | One offer adds to a cell the result of its own command, and none to the others. |
| `EventLoop.CellKeepsWakerUntilWrite` | core/src/command/handler.rs:74-80 | After any results, a cell still has its waker exactly if none of them was its own. |
| `EventLoop.WokenMore` | core/src/command/handler.rs:77-79 | The tasks woken by a list of results are those whose cells had a waker when their first one came. |
| `EventLoop.EventLoop.RetainActive` | core/src/runtime/event_loop.rs:144 | The list keeps, in order, exactly the commands not cancelled. |
| `EventLoop.PruningRefinesRuntime` | core/src/runtime/event_loop.rs:144 | Pruning the boxed commands is the pruning step of the runtime machine. |
| `EventLoop.OfferRefinesRuntime` | core/src/runtime/event_loop.rs:229-237 | Whatever `OfferTo` may leave of list, event, cell and woken tasks is what the offering step of the runtime machine leaves. |
| `EventLoop.CommandRefinesRuntime` | core/src/runtime/event_loop.rs:206-219 | Whatever `HandleCommand` may leave of list, cell and woken tasks is what the running step of the runtime machine leaves. |
| `EventLoop.EventLoop.OfferTo` | core/src/runtime/event_loop.rs:229-237 | One iteration: the list and index of the chain's step, and the result in the right cell. |
| `EventLoop.EventLoop.OfferToCommands` | core/src/runtime/event_loop.rs:221-243 | The loop over the shrinking list leaves the list, every result cell, the woken tasks and the event of the chain. |
| `EventLoop.EventLoop.HandleSwarmEvent` | core/src/runtime/event_loop.rs:221-248 | The chain, and for an event left over exactly one conversion; a consumed event changes nothing else. |
| `EventLoop.EventLoop.HandleCommand` | core/src/runtime/event_loop.rs:206-219 | The command is run and appended, cancelled or not; relay addresses are asked for if the peer is connected and wait otherwise; the swarm is told the command's addresses and dials. |
| `EventLoop.EventLoop.ConnectBootstrapPeers` | core/src/runtime/event_loop.rs:118-138 | Every address is made known and put into the routing table, every peer dialled, in order; with relay client every address waits under its peer. |
| `EventLoop.EventLoop.RequestRelayReservations` | core/src/runtime/event_loop.rs:597-617 | The swarm is asked for the relay address of each address, in order. |
| `EventLoop.EventLoop.NextPendingId` | core/src/runtime/event_loop.rs:250-252 | The old counter is returned and the counter advances modulo 2^64. |
| `EventLoop.EventLoop.ConvertToNodeEvent` | core/src/runtime/event_loop.rs:255-407 | Only first connections and last closings are reported; a request's channel is stored under the id reported; a matching identify makes the peer's addresses known and empties its waiting ones into reservations. |
| `EventLoop.IdentifyRefinesRelay` | core/src/runtime/event_loop.rs:375-407 | Converting an identify event leaves in the loop's ledger the waiting and requested addresses that the identify step leaves in the relay book. |
| `EventLoop.CommandRefinesRelay` | core/src/runtime/event_loop.rs:206-219 | Handling any command leaves in the loop's ledger the waiting and requested addresses that the relay book has after the step of that command, which for all but infrastructure peers is none. |
| `EventLoop.BootstrapRefinesRelay` | core/src/runtime/event_loop.rs:118-138 | Configuring bootstrap peers leaves the waiting addresses that the sequence of their steps leaves in the relay book. |
| `EventLoop.CommandsLeavePending` | core/src/runtime/event_loop.rs:206-219 | Handling a command leaves pending requests and their counter alone. |
| `EventLoop.IdentifiedPeersAreIntroduced` | core/src/runtime/event_loop.rs:379-386 | Converting an event makes known and routes each address a matching identify lists for its peer, once per listing, and does so for no other peer or event. |
| `EventLoop.OtherEventsLeaveLedger` | core/src/runtime/event_loop.rs:295-306 | Converting any other event leaves the ledger as it was. |
| `EventLoop.FrontendHearsPeers` | core/src/runtime/event_loop.rs:295-306 | The frontend is told exactly the aggregated peer events, and of an identify its peer and protocol. |
| `EventLoop.ReportedIdFindsChannel` | core/src/runtime/event_loop.rs:316-326 | The frontend is told of a request under the id under which the channel of that very request now waits. |
| `EventLoop.ReplyUnderReportedId` | core/src/client/req_resp.rs:58-70 | End to end: replying under the id told for a request gives a future that holds the channel of that request and the given response, and removes its entry. |
| `EventLoop.ReplyRefinesReplies` | core/src/client/req_resp.rs:62-69 | Taking a pending channel to reply is the taking step of the reply traffic. |
| `EventLoop.RequestRefinesReplies` | core/src/runtime/event_loop.rs:308-327 | Converting an inbound request leaves in the loop's ledger the pending channels and the counter that its arrival leaves in the reply traffic. |
| `EventLoop.CommandChannel.TrySend` | core/src/runtime/node.rs:13 | A command is queued exactly if the receiver lives and fewer than 32 are queued; a refusal changes nothing. |
| `EventLoop.CommandFuture.constructor` | core/src/client/future.rs:26-32 | A new future has its command and a cell of its own. |
| `EventLoop.CommandFuture.Poll` | core/src/client/future.rs:44-61 | The command is sent once; a refused send ends the wait; every other poll, the first included, takes the result or stores the waker. |
| `EventLoop.PollRefinesRuntime` | core/src/client/future.rs:44-61 | What polling the future object does to queue and cell, and returns, is the sending and the checking half of a poll in the runtime machine. |
| `EventLoop.CommandFuture.Drop` | core/src/client/future.rs:70-74 | Only the cancel flag is set. |
| `EventLoop.NetClient.SendResponse` | core/src/client/req_resp.rs:58-70 | The channel moves from the map into a new future; an unknown, expired or answered id is an error. |

## Left out

- libp2p itself (Kademlia, Noise, Yamux, QUIC, relay, AutoNAT, DCUtR): only an environment under the assumptions above.
- The `bootstrap` crate, `NodeConfig`, `CoreBehaviour` and `start`: wiring; only channel capacities and the relay switch
  are taken from them.
- Byte streams, CBOR, serde, logging, Display and Debug; error strings are datatype values.
- Tokio, mutexes and real time: atomic steps, a set of woken tasks, a natural-number clock. Critical sections are single
  steps, and so is the pruning of the whole active list. Spurious wake-ups are not modelled as steps of their own; a
  pending future may be polled at any time.
- `EventLoop::run` as a method: its `select!` loop is the transition system of `Runtime`; the branch for inbound data
  channels is in `GuardFlow`, where it interleaves with everything else that holds guards.
- The bounded event channel to the frontend: the loop waits there when it is full and goes on when it is closed; the
  model delivers every event, and fairness of the loop includes that it gets past this point.
- `EventLoop.EventLoop.ConvertToNodeEvent`: the ping, mDNS, AutoNAT, DCUtR, relay, listen-address and LAN arms, each
  settled by reading one branch; for identify the agent version, addresses and protocols in the report.
- `KadCommands.MergeStats`: the library's associative merge is symbolic; statistics are the list of the steps'
  statistics, merged by concatenation.
- Immediate commands (is_connected, get_listen_addrs, stop_provide, remove_record, add_peer_addrs): one generic
  immediate command, without what some of them tell the swarm.
- Keys, records and quorums that query commands pass to Kademlia: of the call only its kind is recorded.
- `RequestOptions` timeouts: a future may be dropped at any time.
- `Replies.EntriesHaveBoundedLife`: the purge task is a step that the clock cannot pass by more than one interval; that
  Tokio delivers the ticks is assumed.
