# Fair treatment of TCP connections: a model in Dafny

The repository measures whether a server built on epoll treats its TCP connections fairly. It consists of
servers that count and order what arrives, clients that send in a fixed order or as fast as they can, and
five small machines inside them that decide what the measurements mean. This project models those machines
and proves what the measurements can be relied on to say.

| part | files | what it is |
|---|---|---|
| order pairing | `OrderPairing`, `OrderServer` | the two-socket server: reads of two sockets are folded into "1 before 2" and "2 before 1" |
| connection server | `Statistics`, `ConnectionModel`, `ConnectionRuns`, `QueueRuns`, `LoopRuns`, `Rounds`, `Ledgers`, `ReadRuns`, `StalePick`, `StaleTotals`, `Durations`, `Reports`, `EventLoop` | one persistent slot, one non-persistent slot, a bounded queue; eviction, demotion, pairing, windowed statistics |
| turn-taking clients | `TurnProtocol`, `TurnProgress`, `SenderThreads`, `RoundClient` | threads that share a mutex, a condition variable and a turn |
| receiving servers | `Framing`, `ScanLoop`, `LineServer`, `Messages`, `GapTracker`, `PacketServer`, `EndToEnd` | newline reassembly, message text, the tracker of missing packet numbers, and clients and tracker together |
| load generators | `PartialSend` | whole messages over sends that may take only a part |

Sizes are parameters: any number of threads and packets, any trace, any cutting of a stream into receives,
any queue length, interval and array size. Time is a value supplied with each event. What the kernel decides
(the result of accept, recv, send and epoll_ctl, the scheduling of threads, spurious wakeups) is an input, and
statements about all runs quantify over it. Where a statement needs an assumption about the kernel it is a
predicate of its own: for the connection server `ConnectionRuns.Possible` (single events) and `LoopRuns.Turn` (batches,
the check before each, time that does not run back), and `PartialSending.Allowed` for send.

Classes carry the variables of the programs and their methods are proved against functions on values;
the properties are lemmas about those functions and about whole runs, and the outermost methods
(`Serve`, `Session`, `Thread`, `Receive`, `SendPersistent`, `SendNonPersistent`) state the result for a whole
execution. A client thread is code: its loop, its wait for the turn and its critical section; the other threads
take any steps of the protocol before each of its own steps.

## What the proofs found

- The greedy pairing of reads is optimal, so `both` does not depend on the direction in which the trace is read.
- In server_epx3.c the remembered read is a descriptor that outlives its connection, and the differences of reads
  and pairs that the server reports can be negative.
  - For one closed connection (server_epx3.c:305-306, 515-516): before its first read they are safe, whatever can
    happen until it is closed, if and only if nothing is remembered, or what is remembered waits in the queue, or the
    next check closes the slot before a pair can be made, or the server has been told to stop; except that the rest
    of a batch can still bring the remembered descriptor back (`NextWindowCoveredIff`, with the condition `Exposed`;
    `StalePickUnderflow` is a run in which one is negative).
  - Over all connections (server_epx3.c:155-156): they are safe as long as accept does not return the remembered
    descriptor (`OverallCoveredWithoutRecycling`). When it does, they stay safe if and only if the kind of slot the
    connection gets has a read to spare (`NextAcceptCoveredIff`; `OverallUnderflow` is a run in which one is negative).
- The batch of server_epx3.c is taken before the check for inactive connections, so it can hold an event for the
  connection that the check has just closed. That event lowers `active_clients` once more. The count is right if and
  only if no event has been handled for a closed descriptor (`AccountedIff`), and a round keeps it right if and only
  if its batch holds none for the connection its check has closed (`RoundAccountedUnlessEvicted`; `RoundAccountedIff`
  allows for accept returning that descriptor in between). `StopsWithClient` is a run that ends the server with a
  client still in the persistent slot.
- A connection that waits in the queue of server_epx3.c gets the slot at its turn if and only if it was accepted into
  the queue, not demoted to it, and registering succeeds (`ServedIff`): a demoted connection stays in the interest
  list, so registering it again fails and it is closed. Its time runs from its accept, so that it can be read if and
  only if the first check after its promotion comes less than ten seconds after its accept; otherwise that check
  closes it, unread (`FirstReadIff`). Bytes of demoted connections appear in the overall counters of both kinds, and
  the read that demotes a connection to the queue in none.
- The duration recorded for a closed connection is its own if and only if it was read; otherwise it is the one recorded
  for the connection before it, which is added up once more (`DurationIsOwnIff`, `UnreadTakesFourSeconds`).
- Pairs are counted optimally while both slots keep their connections, if and only if the remembered read is not that
  of a third connection or one of the two sends nothing (`StretchPairsOptimalIff`).
- An event handled for a queued but registered connection would break the client count too (`HangUpAccountedIff`,
  `DemotedHangUpMiscounts`); what is said about runs assumes that none is.
- The written windows name every closed connection if and only if the full windows do, or there is a free slot and the
  connections after them hold a pair (`EverythingWrittenIff`; `UnpairedIsNotWritten` is a run that loses one).
- non.c announces that a quota of zero or less is replaced by the default, but keeps it. The model keeps it too;
  the bound on messages by complete connections holds for every quota.
- With threads that stop when their time is up (clientexp2_time.c), another packet can be sent if and only if the
  thread whose turn it is has not left (`SendAheadIff`, `EarlyStopStrandsOther`); the balance of the counts survives
  (`StrictAlternation`).
- The packet server starts every receive at the front of its buffer, so it sees the lines of the stream exactly when
  no newline follows a receive that ended in mid-line (`SeenLinesIffAligned`).

## Model

| member | source | states |
|---|---|---|
| OrderPairing.PairingIsOptimal | serverexp2.c:386-442 | for every trace the number of pairs is the largest number of pairwise disjoint stretches that each hold a read of both sockets |
| OrderPairing.CompletionsCounted | serverexp2.c:409-413 | the pair count is the number of reads at which the count goes up |
| OrderPairing.NoPairIff | serverexp2.c:386-442 | no pair is counted if and only if one of the sockets is not read |
| OrderPairing.StalledSeesOneRole | serverexp2.c:403-441 | a stretch without a completed pair holds reads of one socket only, which is the one remembered |
| OrderPairing.PackingBound | serverexp2.c:386-442 | no family of disjoint stretches with both sockets is larger than the pair count |
| OrderPairing.GreedyPacking | serverexp2.c:386-442 | the automaton's own pairs are such a family |
| OrderPairing.BothUnchangedByReversal | serverexp2.c:386-442 | the reversed trace gives the same number of pairs |
| OrderPairing.ExchangeSwapsOrders | serverexp2.c:403-441 | exchanging the two sockets exchanges the two before-counts and nothing else |
| OrderPairing.OrdersAreOfPairs | serverexp2.c:403-441 | cut the trace from its start into stretches of one socket ended by one read of the other: "1 before 2" counts those that socket 1 begins, "2 before 1" those that socket 2 begins, and what is left over is remembered |
| OrderPairing.RoleChangesBoundPairs | serverexp2.c:386-442 | with c adjacent role changes, ceil(c/2) <= pairs <= c |
| OrderPairing.PairsSpendReads | serverexp2.c:161-162 | pairs are the sum of the before-counts, and each uses one read of each socket, a remembered read being extra |
| OrderServing.CountedReadsAreDataReads | serverexp2.c:357-386 | the reads that are paired are among those that the per-socket totals count |
| OrderServing.PacketsRoundDown | serverexp2.c:397-398 | packet counts lose less than one packet for each read against the byte counts |
| OrderServing.NamesInOrder | serverexp2.c:296-334 | after any events the two names are those of the first and the second descriptor that accept has returned, arrivals are all returns of accept, and active clients are the descriptors less the connections closed by the peer |
| OrderServing.RunningIff | serverexp2.c:465-477 | the server stops exactly at an event that is not paired data and leaves as many closed connections as accepted ones |
| OrderServing.NextFigures | serverexp2.c:355-442 | data on a named socket enters its total, and the pairing when accept has returned exactly twice |
| OrderServing.BytesConcat | serverexp2.c:397 | bytes of a socket add up over the reads, each with its size |
| OrderServing.OrderServer.Accept | serverexp2.c:295-334 | every return of accept is an arrival; the first two descriptors get the two names |
| OrderServing.OrderServer.CountFirst | serverexp2.c:391-415 | the pairing counters, bytes and packets after a read of the first socket are those of the longer trace |
| OrderServing.OrderServer.CountSecond | serverexp2.c:417-442 | likewise for the second socket |
| OrderServing.OrderServer.HandleData | serverexp2.c:355-479 | any return of recv: totals, pairing only under exactly two arrivals, otherwise close and maybe stop |
| OrderServing.OrderServer.PrintOrderRatio | serverexp2.c:156-167 | the printed counts are the optimal pairing of the counted trace and the two socket counts are never negative |
| OrderServing.Serve | serverexp2.c:284-485 | over any batches of events the report describes the events up to the first batch after which the server is told to stop |
| Statistics.TotalConcat | server_epx3.c:302-311 | sums over closed connections add up over concatenation |
| Statistics.TotalsAgree | server_epx3.c:302-311 | a window's summed fields are sums of the connections' counters and durations, the "only" fields less the pairs |
| Statistics.RatesAreRates | server_epx3.c:312-316 | ratios times pairs are the pairs of each kind, throughputs times the duration are the bits of each kind, and both are zero without pairs or duration |
| Statistics.WindowsAddUp | server_epx3.c:318-322 | windows side by side add up to the connections they cover |
| Statistics.WindowsAndRest | server_epx3.c:301-322 | stored windows and the one being filled add up to all closed connections |
| Statistics.StoredIsMin | server_epx3.c:319-320 | the number of stored windows is the smaller of full intervals and slots |
| Statistics.FillingGrows | server_epx3.c:301-322 | one more closed connection keeps window i equal to the summary of connections i * interval up to the next window, and the rest in the window being filled |
| Statistics.LastWindowCovers | server_epx3.c:576-578 | after the final save every window covers at least one connection |
| Statistics.RangesDescribe | server_epx3.c:142-147 | the printed ranges are non-empty, lie side by side from the first connection on, and each window summarises exactly its range |
| Statistics.WindowsHold | server_epx3.c:301-322 | each window that is written holds the sums over the connections of its range and the rates of the last of them |
| Reports.EverythingWrittenIff | server_epx3.c:576-578 | the ranges in the report reach the last closed connection if and only if the full windows do, or there is a free slot and the connections after them hold a pair |
| Reports.UnpairedIsNotWritten | server_epx3.c:576-578 | a run after which any report leaves out the one connection that was closed, without a pair |
| Reports.ReportFits | server_epx3.c:141-160 | in the report of any run pairs fit the reads; in a possible one every read counts once with its bytes and packets, each overall counter is what the events were worth to it, and rejected are the connections that found no place; and without a recycled descriptor no difference is negative |
| Statistics.StatsWindows.Record | server_epx3.c:297-322 | closing a connection appends it to the history and keeps windows, partial window, count and duration those of the history |
| Statistics.StatsWindows.Accumulate | server_epx3.c:302-316 | summed fields are added, ratios and throughputs overwritten |
| Statistics.StatsWindows.SaveRemaining | server_epx3.c:576-578 | the final number of windows, in terms of the history alone |
| Statistics.StatsWindows.Ranges | server_epx3.c:142-147 | the range computation gives the ranges that the windows summarise |
| ConnectionModel.StoppedPlays | server_epx3.c:274-287 | once told to stop, further rounds handle nothing |
| Rounds.PlaysInRounds | server_epx3.c:274-358 | a run over rounds is cut into them: in each, while running, the check comes first and records an idle connection with the counters from before the round, and then the batch in its order, if and only if the check closed nothing, nobody waited, or the head of the queue could be registered |
| Rounds.RoundsArePath | server_epx3.c:274-358 | rounds delivered as the kernel does, with time not running back, form a path of the loop, so that all that is proved of paths holds of them |
| Ledgers.BooksAreEvents | server_epx3.c:297-334 | in every possible run the counters of the current connection are those of the events since the last release, less what was carried away; each release has recorded exactly these; and each overall counter is the sum of what the events were worth to it |
| Ledgers.NextPick | server_epx3.c:460-494 | in every possible run, what is remembered after each event, in terms of who was in the slots |
| Ledgers.ConnectionsAreEvents | server_epx3.c:361-569 | in every possible run rejected are the arrivals and unmarked reads that found both slots and the queue full, closed are the hang-ups, evictions and failed promotions, accepted the arrivals, and active the rest |
| Ledgers.RunningIff | server_epx3.c:567-569 | the server stops exactly at a signal or at a hang-up that leaves nobody active and nobody waiting, unless a promotion has failed there |
| ConnectionRuns.PairingPotentialHolds | server_epx3.c:457-494 | in every run, with stale memory and demotions: 2 * pairs, plus one for a remembered read, is at most the reads; and pairs are the sum of the two orders |
| StalePicks.WindowCoveredIff | server_epx3.c:274-306 | in any configuration of the loop in which the slot has no reads yet and none is pending, every continuation until the next connection is closed records it with pairs within the reads of both kinds, if and only if the configuration is not exposed: exposed means that what is remembered is not queued, and that a running server either leaves time for a round before the slot is due or can still read the persistent slot in this one, or that the batch of a stopped one can bring the remembered descriptor back |
| StalePicks.NextWindowCoveredIff | server_epx3.c:509-516 | the same after any release on any path of the loop from its start |
| StalePicks.StalePickUnderflow | server_epx3.c:305-306 | a run in which a closed connection's difference of reads and pairs is negative |
| StaleTotals.OverallCoveredIff | server_epx3.c:155-156 | while the server runs, every continuation in which accept does not return the remembered descriptor keeps the overall differences non-negative if and only if the slot of the remembered connection, now or from the queue, has a read to spare, or the next check closes that connection before it can make a pair |
| StaleTotals.OverallCoveredWithoutRecycling | server_epx3.c:155-156 | in every state of every possible run without such an accept there is a read to spare |
| StaleTotals.AcceptSparedIff | server_epx3.c:361-405 | an accept keeps a read to spare if and only if it returns another descriptor, or the slot the connection gets has a read to spare, or it is rejected |
| StaleTotals.NextAcceptCoveredIff | server_epx3.c:361-405 | and then, and only then, do all such continuations of a running server keep the overall differences non-negative |
| StaleTotals.OverallUnderflow | server_epx3.c:155-156 | a run with one pair, two persistent reads and no non-persistent read |
| ConnectionRuns.ClosingKeepsInv | server_epx3.c:289-356 | closing the non-persistent connection and promoting the next keeps slots, queue, registrations and books in order, with registration succeeding or not |
| ConnectionRuns.AcceptKeepsInv | server_epx3.c:361-405 | so does accepting, in all five outcomes |
| ConnectionRuns.DemoteKeepsInv | server_epx3.c:411-442 | so does demoting, in all three outcomes |
| ConnectionRuns.HangUpKeepsInv | server_epx3.c:496-569 | so does an event that ends a connection, for a slot or for a descriptor closed before |
| ConnectionRuns.ConnectionsInOrder | server_epx3.c:289-569 | in every reachable state the queue is within its bound, held descriptors are distinct and only they are registered, and accepted is active plus rejected plus closed |
| ConnectionRuns.MissingAreStale | server_epx3.c:496-500 | in every reachable state the connections held are the active count plus the events handled for closed descriptors |
| ConnectionRuns.AccountedIff | server_epx3.c:496-500 | so active clients are occupied slots plus queue if and only if there has been no such event |
| LoopRuns.PathIsPossible | server_epx3.c:274-358 | a path of the loop, with its batches, its check and its clock, is one of the possible runs |
| LoopRuns.RoundAccountedIff | server_epx3.c:275-500 | a round keeps the active count right if and only if every event of its batch for the connection that its check has closed finds the descriptor in use again |
| LoopRuns.RoundAccountedUnlessEvicted | server_epx3.c:275-500 | so, if accept has not returned that descriptor, if and only if the batch holds no event for it |
| LoopRuns.StopsWithClient | server_epx3.c:289-569 | a path of the loop that ends with the server stopped, no active client and a client in the persistent slot |
| QueueRuns.StepMovesQueue | server_epx3.c:336-342 | each event puts at most one connection at the back, or takes the head out on a release |
| QueueRuns.QueueIsFifo | server_epx3.c:336-354 | over every run, dequeued connections followed by the queue are the enqueued ones in order |
| QueueRuns.PositionCountsReleases | server_epx3.c:546-554 | the connection at index j leaves the queue, as the next one taken, at exactly the (j+1)-th release |
| QueueRuns.IdleMeansNobodyHeldIff | server_epx3.c:567-569 | with no active client, the slots and the queue are empty if and only if no event has been handled for a closed descriptor |
| QueueRuns.NobodyWaitsForEmptySlot | server_epx3.c:385-399 | if promotions succeed, a non-empty queue means that the slot is occupied |
| QueueRuns.StandingKept | server_epx3.c:396-399 | up to its release a queued connection stays registered if it was, and unregistered if it was not |
| QueueRuns.EnteredAt | server_epx3.c:396-427 | a connection enters the queue registered if and only if it was demoted |
| QueueRuns.ServedIff | server_epx3.c:336-354 | the connection put at index j is at the head at the (j+1)-th release; it gets the slot if and only if it was accepted, not demoted, and registering succeeds, with the time of its accept, and is closed otherwise |
| LoopRuns.FirstReadIff | server_epx3.c:289-292 | a promoted connection has not been read by the next check, and can be from then on if and only if that check comes less than the timeout after its accept; otherwise the check closes it |
| QueueRuns.HangUpAccountedIff | server_epx3.c:496-500 | an event that ends a connection, for any descriptor at all, keeps the count right if and only if the descriptor is in a slot |
| QueueRuns.DemotedHangUpMiscounts | server_epx3.c:423-432 | a run that ends with a queued descriptor in the interest list, whose hang-up would miscount |
| Durations.DurationIsOwnIff | server_epx3.c:297-298 | in every run: the duration recorded at a release is the time from the first to the last read of that connection if it was read, and otherwise that recorded at the release before, or zero |
| Durations.UnreadEntriesRepeat | server_epx3.c:507-508 | in the history of every run each connection without a read has the duration of its predecessor |
| Durations.UnreadTakesFourSeconds | server_epx3.c:297-298 | a run in which a connection that is never read is recorded with the 4 seconds of the one before |
| Durations.SinceKept | server_epx3.c:337-338 | in every possible run the time kept for the slot and for each place in the queue is that of the accept of the connection there, or of the first read in the persistent slot it was moved on from |
| ReadRuns.ReadsAccounted | server_epx3.c:407-495 | in every reachable state the reads, bytes and whole packets on the books are those delivered, except reads that cost a connection its place |
| ReadRuns.SlotsKept | server_epx3.c:274-573 | an event that leaves both slots as they are is a read counted there, or touches no counter |
| ReadRuns.StretchPairs | server_epx3.c:447-495 | while both slots keep their connections, over any number of rounds and whatever is remembered, pairs are counted as the two-socket automaton does when started with what is remembered, and reads, bytes and whole packets are added to the slot they came from |
| ReadRuns.LoneStretch | server_epx3.c:447-495 | while one slot is empty, reads, bytes and packets are added to the slot they came from, and nothing is paired or newly remembered |
| ReadRuns.AutomatonCounts | server_epx3.c:460-494 | that automaton counts the remembered read followed by the reads, and stands still when what is remembered belongs to neither slot |
| ReadRuns.StretchPairsOptimalIff | server_epx3.c:460-494 | the pairs counted are the largest number of disjoint stretches with a read of both connections if and only if what was remembered belongs to a slot, or nothing was, or one of the connections sent nothing |
| EventLoop.WaitingQueue.Enqueue | server_epx3.c:397-399 | the connection goes to the back |
| EventLoop.WaitingQueue.Dequeue | server_epx3.c:337-342 | the shift loop takes the head and keeps the rest in order |
| EventLoop.Server.ThreeLevels | server_epx3.c:301-334 | each overall counter is the sum of the stored windows, the window being filled and the current connection, with demoted bytes on both sides |
| EventLoop.Server.CloseAndPromote | server_epx3.c:506-565 | the block shared by eviction and hang-up: books closed, slot refilled from the queue or the head closed, all counters conserved |
| EventLoop.Server.CloseBooks | server_epx3.c:297-334 | the closed connection enters the history and the slot and its counters start again from zero |
| EventLoop.Server.PromoteHead | server_epx3.c:336-354 | the head of the queue is installed or closed |
| EventLoop.Server.EvictInactive | server_epx3.c:289-356 | eviction happens exactly when the non-persistent connection is old enough and has sent nothing, and the rest of the round is skipped exactly when the slot cannot be refilled |
| EventLoop.Server.AcceptClient | server_epx3.c:361-405 | the new connection goes to the first slot, the second, the queue, or is rejected |
| EventLoop.Server.DemotePersistent | server_epx3.c:411-442 | the connection moves to the slot, to the queue or out, and its bytes are carried or struck off, with overall counters conserved |
| EventLoop.Server.CountPersistentRead | server_epx3.c:447-470 | the new state after a read of the persistent slot, with overall counters conserved |
| EventLoop.Server.CountNonPersistentRead | server_epx3.c:471-495 | likewise for the non-persistent slot |
| EventLoop.Server.ReadClient | server_epx3.c:407-495 | a read is classified, counted and paired, or lost with its connection |
| EventLoop.Server.LoseClient | server_epx3.c:496-570 | a connection that is lost, and when the server stops |
| EventLoop.Server.HandleRounds | server_epx3.c:274-573 | the whole loop is a run of the model over the rounds one after the other, the check of each before its batch, until it is told to stop |
| EventLoop.Server.Finish | server_epx3.c:575-588 | the report describes the final state; queued connections are closed |
| EventLoop.Serve | server_epx3.c:262-593 | for any rounds the report is that of a run cut into them: windows and ranges are those of the closed connections, overall counters are conserved, and pairs, reads and connections fit as far as the environment allows |
| TurnTaking.StepKeepsInv | exp1/client_final.c:32-46 | every step keeps mutual exclusion, order, counts, limits and the absence of lost wakeups |
| TurnTaking.RunKeepsInv | exp1/client_final.c:32-46 | so does every run, with any spurious wakeups |
| TurnProgress.SendsAreRoundRobin | exp1/client_final.c:33-45 | the k-th send, from 0, is connection k mod N + 1 with identifier k + 1 |
| TurnProgress.NoLostWakeup | exp1/client_final.c:34-36 | when the mutex is free the thread whose turn it is is not waiting |
| TurnProgress.MutualExclusion | exp1/client_final.c:33-45 | at most one thread is in the critical section |
| TurnProgress.StuckIffAsleepOrDone | exp1/client_final.c:32-46 | nothing can move if and only if the mutex is free and every thread waits or has left |
| TurnProgress.StuckIffComplete | exp1/client_final.c:32-46 | with a fixed number of packets nothing can move if and only if every thread has left, and then all N * P packets are sent |
| TurnProgress.NoDeadlock | exp1/client_final.c:32-46 | before N * P sends some thread can move |
| TurnProgress.StepDecreases | exp1/client_final.c:32-46 | every step but a spurious wakeup decreases remaining sends, pending broadcast and phase weights |
| TurnProgress.RunsTerminate | exp1/client_final.c:32-46 | the length of a run is bounded, up to spurious wakeups, and a run that cannot go on is complete |
| TurnProgress.RunsCanFinish | exp1/client_final.c:32-46 | every run extends, without spurious wakeups, to one in which all threads have left |
| TurnProgress.CountsStayBalanced | clientexp2_time.c:73-88 | per-connection counts differ by one exactly for the connections before the turn |
| TurnProgress.StrictAlternation | clientexp2_time.c:61-88 | with two connections the difference of the counts is the turn less one, whatever threads stop early |
| TurnProgress.StuckWhenTurnHolderLeft | clientexp2_time.c:61-76 | with early stops the protocol is stuck if and only if the turn's thread has left and the others wait or have left |
| TurnProgress.SendAheadIff | clientexp2_time.c:61-88 | with early stops some continuation sends another packet if and only if the thread whose turn it is has not left |
| TurnProgress.EarlyStopStrandsOther | clientexp2_time.c:67-76 | a run in which that happens |
| SenderThreads.TurnNumber | exp1/client_final.c:38-43 | when it is its turn, a thread that has sent k packets has number k * N + t to send |
| SenderThreads.Clients.Acquire | exp1/client_final.c:33-36 | the mutex is taken when it is found free after the others have run, after a wait once woken as well; without it the thread is blocked |
| SenderThreads.Clients.AwaitTurn | exp1/client_final.c:34-36 | the wait loop ends with the mutex held and the turn, whatever wakes it |
| SenderThreads.Clients.SendPacket | exp1/client_final.c:38-45 | the critical section prints the message with that number, in three steps of the machine with the others running before each |
| SenderThreads.Clients.SendPackets | exp1/client_final.c:32-50 | the k-th message of the thread has number k * N + t, and it ends after its rounds or blocked |
| SenderThreads.Thread | exp1/client_final.c:20-51 | so whatever the other threads do before each step of this one: all steps are a run, and with a fixed number of packets the thread is done when nothing can move |
| RoundTurns.RoundTestRedundant | exp1/client8.c:49 | whenever it is a connection's turn the packet test holds as well |
| RoundTurns.Bisimilar | exp1/client8.c:45-83 | one step: the same steps are possible as with the single counter and lead to corresponding states |
| RoundTurns.SameRuns | exp1/client8.c:45-83 | the two clients have the same runs, with id = (current_packet - 1) * N + current_conn |
| RoundTurns.RoundsInOrder | exp1/client8.c:45-83 | the k-th packet is of connection k mod N + 1 and round k div N + 1 |
| RoundTurns.TextDetermines | exp1/client8.c:53-55 | both numbers of a printed packet scan back |
| RoundTurns.RoundClients.AwaitTurn | exp1/client8.c:49-51 | the wait loop on both counters ends with the mutex held and the turn |
| RoundTurns.Thread | exp1/client8.c:45-86 | whatever the other threads do before each step of this one, its k-th packet is of round k + 1, and all steps are a run of the single-counter client too |
| Framing.FrameConcat | exp1/server6.c:40-65 | framing can be resumed from the unfinished tail alone |
| Framing.FrameIsTheSplit | exp1/server6.c:44-62 | the framing is the one and only split of the stream into newline-free lines and tail |
| Framing.LinesAreNewlines | exp1/server6.c:52 | there are as many lines as newlines |
| Framing.ReceivableIffLinesFit | exp1/server6.c:28-29 | a stream can be received in full, in some pieces, if and only if no unfinished line fills the buffer; and then no choice of pieces gets stuck |
| Framing.SeenLinesIffAligned | exp1/server_final.c:50-90 | scanning each receive alone sees the lines of the stream if and only if no newline follows a receive that ended in mid-line |
| ScanLoop.MemChr | exp1/server6.c:45 | the first position of the character, or the end |
| ScanLoop.MoveToFront | exp1/server6.c:64-65 | the rest is moved to the front although the two ranges overlap |
| LineServing.Connection.HandleConnection | exp1/server6.c:27-66 | one receive logs exactly the lines it completes and leaves the unfinished tail in the buffer; a full buffer closes the connection |
| LineServing.Connection.LogLines | exp1/server6.c:44-62 | the scan loop logs every complete line in order and stops at the unfinished rest |
| LineServing.EntriesAreLog | exp1/server6.c:48-52 | the entries are one for each line, numbered from 1, with the line up to its first NUL |
| LineServing.Session | exp1/server6.c:27-66 | for every cutting into receives that fit, the lines logged are the newline split of the whole stream, the rest is its tail and the count is its newlines |
| Messages.ScanDecimal | exp1/server_final.c:63 | scanning a printed integer gives it back and stops at the first character after it |
| Messages.ScanRecoversId | exp1/client_final.c:39 | scanning a printed line recovers the packet number, for all connection and packet numbers |
| Messages.ScanRecoversConn | exp1/client_final.c:38-39 | the first number of a printed body scans back to the connection, up to what follows it |
| Messages.BodyDetermines | exp1/client_final.c:38-39 | so the text determines connection and packet number |
| Messages.ScanIff | exp1/server_final.c:63 | a line gives a number if and only if it is made up of "TCP:", an integer, a bar with or without blanks, "PACKET:" and that integer, with what follows it arbitrary short of a digit |
| Messages.BodyIsPlain | exp1/client_final.c:39 | a printed line holds no newline and no NUL before its end |
| Messages.MessageFits | exp1/client_final.c:38-39 | with 32-bit numbers the message fits its buffer |
| GapTracking.ExpectedIsMaxPlusOne | exp1/server_final.c:66-87 | the expected number is one more than the larger of 0 and the maximum seen |
| GapTracking.GapsAndAcceptedPartition | exp1/server_final.c:66-87 | gaps and accepted numbers are increasing and split 1..expected-1; the inner loop has run once a gap, at most expected-1 times |
| GapTracking.GapsAreTheOvertaken | exp1/server_final.c:75-85 | a number is a gap if and only if a larger one arrived before it |
| GapTracking.AcceptedCountsMaxima | exp1/server_final.c:66-70 | the accepted numbers are the left-to-right maxima |
| GapTracking.PermutationGaps | exp1/server_final.c:66-87 | on a permutation of 1..n the gaps are, in increasing order, the numbers that arrive after a larger one, n less the left-to-right maxima of them |
| GapTracking.NoGapsIffSorted | exp1/server_final.c:66-87 | no gap if and only if the permutation arrives in order |
| GapTracking.Tracker.Observe | exp1/server_final.c:66-86 | the variables after a number are those of the longer sequence: expected number, loop passes, and the stored prefix of the ideal gap list |
| GapTracking.Tracker.RecordGaps | exp1/server_final.c:77-83 | the inner loop appends the skipped range as far as the array has room |
| PacketServing.PacketServer.HandleConnection | exp1/server_final.c:35-91 | one receive feeds the tracker the numbers scanned from its complete lines |
| PacketServing.PacketServer.ScanLine | exp1/server_final.c:60-63 | a line is terminated in place and scanned; other bytes stay as they are |
| PacketServing.Session | exp1/server_final.c:35-91 | over any receives the expected number and the stored list are those of the ideal tracker, the list cut to its limit |
| EndToEnd.EarlierArrived | exp1/client_final.c:33-45 | with delivery in order on each connection, a packet finds all earlier ones of its connection arrived |
| EndToEnd.GapsAreOfOtherConnections | exp1/server_final.c:75-85 | a packet of connection c never has a number of c recorded as missing |
| EndToEnd.CompleteIsPermutation | exp1/client_final.c:33-45 | full delivery is a permutation of the identifiers sent |
| EndToEnd.TextRoundTrip | exp1/client_final.c:39-40 | printed packets are whole lines and scanning them gives the identifiers back |
| EndToEnd.ReadsRoundTrip | exp1/server_final.c:50-90 | so for every cutting into receives of whole packets |
| EndToEnd.Experiment | exp1/client_final.c:20-51 | after a complete run and full delivery the server expects N * P + 1, its gaps are the identifiers that arrived after a larger one, and there are none if and only if delivery was in send order |
| EndToEnd.GapIsRecorded | exp1/server_final.c:75-85 | every gap was recorded at some arrival |
| EndToEnd.Receive | exp1/server_final.c:35-91 | the packet server over the receives of such a delivery returns N * P + 1 and, up to its limit, the late identifiers in increasing order, each found missing when a packet of another connection came |
| PartialSending.OnWireStep | non.c:117-127 | a short send moves the wire from whole messages plus a prefix to whole messages plus a longer prefix |
| PartialSending.WireBytes | per.c:110-119 | bytes divided by the message size are the messages, and the remainder is the part sent |
| PartialSending.TakenUpToFailure | non.c:117-134 | bytes taken are those of all sends before the first failure; a send that is to be tried again ends nothing |
| PartialSending.SendPersistent | per.c:105-133 | for any allowed results of send: the wire is whole messages plus a prefix, all bytes taken are on it, and bytes are 1024 * messages plus the prefix |
| PartialSending.SendMessages | non.c:110-142 | one connection carries the bytes taken, up to its quota, as whole messages plus a prefix |
| PartialSending.QuotaBound | non.c:137-139 | messages are at least the quota times the complete connections |
| PartialSending.ConnectsCounted | non.c:109-111 | connections made are counted by the attempts that succeed |
| PartialSending.CompleteCounted | non.c:137-139 | complete connections are counted by the connections that carry exactly the quota |
| PartialSending.BytesAreMessages | non.c:117-127 | the bytes on all wires are those of the messages counted and of the parts left unfinished, at most a message for each connection |
| PartialSending.SendNonPersistent | non.c:90-157 | complete and non-complete connections add up to the successful connects, and each carries what it should |

## Left out

- Sockets, options, CPU affinity, signals and file output of all programs: operating-system calls; their results are inputs of the model. A signal is a `Stop` event.
- Clocks: each event brings its time. Throughputs and ratios of a window are kept as exact reals; the overall averages and throughputs printed at the end, and rounding, are not modelled.
- conn1_end of server_epx3.c and the start and end times of serverexp2.c: they enter printed durations only. So does total_data_bytes of serverexp2.c.
- Machine integers: counters are unbounded, and the differences at server_epx3.c:305-306 and 515-516, unsigned in the program, are integers. Packet numbers are taken to stay below INT_MAX.
- Failure of epoll_ctl on the two accept paths of server_epx3.c (379-384, 390-395): it leaves the slot set to a closed descriptor. Failure on promotion is modelled.
- Events for a queued descriptor: outside `ConnectionRuns.Possible`; `QueueRuns.HangUpAccountedIff` says what they would do.
- Memory allocation, its failure, and freeing.
- Connect failures of the fixed-count clients: every thread is taken to connect.
- The mutex around the log file of exp1/client8.c and the sleep after each packet: taken and released inside one step.
- Progress of clientexp2_time.c: it has none to offer once a thread has stopped on its own turn; `TurnProgress.StuckWhenTurnHolderLeft` says exactly when it is stuck.
- Receives that cut a packet are outside the end-to-end statement; `Framing.SeenLinesIffAligned` says when they do harm.
- Edge-triggered readiness of exp1/server_final.c and exp1/server6.c, under which one receive may leave bytes in the socket: the receives that do happen are arbitrary.
- exp1/server7.c, exp1/server8 copy.c, exp1/client9copy.c, client_op.c: the same tracker and turn protocol with other line formats.
- exp1/client.c, exp1/client7.c, exp1/server.c, clientexp2.c: fixed scripts, loops without an order, a bounded append.
- The Python scripts under Resultexp3 and outputexp2, the result logs and the tuning notes.
