# Verification of the XWorkmate Bridge

The bridge is a Go service. Part of it is a durable journal of agent runs that several Bridge instances
may share; other parts forward requests between Bridges, keep the answer of an asynchronous gateway run,
admit requests to the gateway, multiplex a child process, and hand out download links. This project models
those parts in Dafny and proves what they promise.

`dafny verify dfyconfig.toml` covers the whole project.

## The run journal (`Journal*.dfy`, `EventPaging.dfy`)

`JournalTables` holds the tables and, for each SQL transaction of `session_local_runs.go` and
`session_local.go`, one function on them. A transaction ends in one of three ways: committed, rolled back,
or committed although the client saw an error. `JournalStore` is the store as an object, statement by
statement; each of its methods is proved to do what the transaction function says.

`JournalProtocol` puts any number of instances on the tables. Its 24 steps are the places where the source
can be interrupted: the lock probe and the transaction it guards are separate steps, so are the fence, the
scan and each recovery of start-up, and the hazard delete after a commit. A lock connection can die at any
moment; a process can crash; a remote execution can outlive its process; an administrator clears a hazard
only when the execution has stopped and no Bridge process has a goroutine left for the run, which is what
the source's instruction to stop all old Bridge processes first comes to. The model also keeps history: who
launched each run, which runs were started, every call of `Process`, and which executions may still be going
on. Steps which the source serialises with its mutex may interleave freely here, so every run of the source
is a run of the model.

`JournalInvariant` proves one invariant of every step; `JournalTheorems`, `JournalCancel` and
`EventPaging` derive the promises from it. All of them speak of every sequence of steps. `JournalPaths` and
`JournalRuns` say in plain words what each operation records, and follow whole runs from the message to the
end: completed, failed, cancelled, out of time, with a lost owner, with an unreported commit, or taken over.

`JournalWords` reads a log as one word per run and writes words as a log. That a log equals the writing of
its own reading is the grammar; that the stored states equal the reading is event sourcing.

## The other parts

- Forwarding: one node's decision, and the journey of a request over a network with arbitrary next hops.
- TaskRouter: sticky session routes, placement rules and round robin of the entry node.
- Delivery: which gateway answers may be presented as completed.
- RunRegistry: the per-session record of an OpenClaw run, its lookups, deadline and cancellation.
- RunAnswers: what lookups and cancels of a started run are answered, status by status.
- Admission: the gate before the gateway, with every path of its one caller.
- Demux: concurrent calls over one child process.
- ArtifactLinks: path clean-up, minting and checking of download links.
- ArtifactSignatures: which fields a signature opens.
- Text: trimming, case folding, splitting, 64-bit decimal numbers.

## What turned out not to hold

For each of these there is a theorem with a concrete input, and one that says exactly when the promise holds.

- A cancelled run can become completed when the executor's own result carries the code
  `BRIDGE_RESTART_INTERRUPTED` (`RestartCodeDefeatsCancel`); a step does this if and only if it commits such
  a result (`LateCompletionExactly`).
- The first final answer of a run is not always final. The running handle that goes back to the client who
  began the turn erases an answer recorded in the meantime (`HandBackLosesAnswer`), and so does a lookup that
  names another run while the gateway is silent (`OtherRunLosesAnswer`). `FirstFinalAnswerStands` says which
  continuations keep it. A recorded artifact-wait cancellation is lost in the same ways (`WaitCancelIsLost`,
  `WaitCancelStands`).
- A hop header that reads as 2^63 - 1 wraps around and passes the limit test once more
  (`LargestHeaderExceeds`, `HopLimitHoldsExactly`).
- With an empty run id, a cancel is confirmed as an artifact-wait cancellation without any evidence
  (`EmptyRunNeedsNoEvidence`, `WaitCancelExactly`).
- The extensions a session recorded for its run are filled into a lookup as a typed list, which the list
  reader treats as absent, so they are not demanded (`RecordedPdfIsNotDemanded`); their files are guaranteed
  for payloads completed with success if and only if the lookup or the payload names extensions that imply
  them (`RecordedExtensionsExactly`).
- The extension `..` is kept by the clean-up of the list but asks for no file (`DotsAskForNothing`). An answer of
  unknown status that claims success has a file for every required extension if and only if each asks for
  one or is implied by one that does (`AllRequiredExactly`).
- Round robin is not fair when requests in between choose among other nodes by the same counter, which two
  selectors with a bar in their fields can share (`SharedCounterIsUnfair`, `RoundRobinIsFairExactly`).
- The message under a link's signature does not mark where its fields end. A key or run id with a newline
  can be read in two ways (`TwoReadings`), and a run id with an empty line can hide the path of another run
  (`HiddenPathIsOpened`). `SignatureOpensOnlyExactly` says when a signature opens its own fields only.

## Model

| member | source | states |
|---|---|---|
| JournalTheorems.TakeoverSafety | internal/acp/session_local_runs.go:421-466 | whenever an instance may accept a run, every execution under way is its own and in another session, and no run dispatched by another instance still has its hazard |
| JournalTheorems.HazardLeavesOnly | internal/acp/session_local_runs.go:700-706 | a hazard vanishes only through its own instance on a living lock connection after the completion is committed, or through the administrator; never while the execution may be live |
| JournalTheorems.TakeoverHistory | internal/acp/session_local_runs.go:421-466 | whenever an instance may accept a run, the history holds, for every run started by another instance, a step of one of these two kinds that removed its hazard |
| JournalTheorems.FormerOwnerCannotStart | internal/acp/session_local_runs.go:603-650 | once a successor has laid its fence, no earlier instance can commit running or pass the start probe |
| JournalTheorems.FenceIsForever | internal/acp/session_local_runs.go:64-66 | a laid fence stays through every later step, so the previous row holds from then on |
| JournalTheorems.ExecutionsExclude | internal/acp/session_local_runs.go:33-41 | all executions that may still be live belong to one instance, the newest that launched any, and no two are in one session |
| JournalTheorems.OnePerSession | internal/acp/session_local_runs.go:60-63 | a session has at most one hazard and one active run, and both are its latest run |
| JournalTheorems.ProcessAtMostOnce | internal/acp/session_local_runs.go:531-557 | over the whole history Process is called at most once for each session and request key |
| JournalTheorems.ProcessNeedsCommittedStart | internal/acp/session_local_runs.go:627-649 | Process is called only by the launching instance, after its start was committed, under its own hazard, for the first time |
| JournalTheorems.LogFollowsGrammar | internal/acp/session_local_runs.go:226-241 | every log is numbered 1 to event_seq and is the spelling of complete runs, only the last possibly unfinished |
| JournalTheorems.RunHistory | internal/acp/session_local_runs.go:666-696 | within a run no event kind repeats and nothing follows the terminal event; the assistant's message directly precedes run.completed, which needs an earlier run.running |
| JournalTheorems.EventSourcing | internal/acp/session_local_runs.go:487-505 | run_state and every stored run state are the fold of the log; run_state is the state of the latest run, idle when there is none |
| JournalTheorems.HistoryGrows | internal/acp/session_local_runs.go:226-241 | rows, receipts, keys and logged events survive every continuation, a settled run keeps its state, a cancel key never rebinds |
| JournalTheorems.ReplayIsStable | internal/acp/session_local_runs.go:437-457 | resubmitting a key after any further steps changes nothing and gives the original receipt, or a conflict for another digest; the receipt points at the run's own message.created and its snapshot is that number plus 2 |
| JournalPaths.SameMessageSameReceipt | internal/acp/session_local_runs.go:437-502 | a message accepted once, or committed unreported, gets that run's receipt whenever it is sent again, after any further steps and from any instance; another content under its key is a conflict; neither changes anything |
| JournalTheorems.CreateIsStable | internal/acp/session_local.go:173-204 | the same law for session creation: the same session, or a conflict for another title |
| JournalTheorems.CancelSettles | internal/acp/session_local_runs.go:670-696 | a requested cancellation is left only through the run's own goroutine after Process is over, or through restart recovery as failed |
| JournalTheorems.LateCompletionExactly | internal/acp/session_local_runs.go:670-678 | in every reachable state a step turns a cancelled run into a completed one if and only if it commits that run's completion and the executor's result carries the restart code |
| JournalCancel.CancelledNeverCompletes | internal/acp/session_local_runs.go:670-678 | if no executor result carries the restart code, no run of any log has both a cancel request and a completion |
| JournalCancel.RestartCodeDefeatsCancel | internal/acp/session_local_runs.go:563-590 | a concrete run of the protocol in which the executor's restart code completes a cancelled run |
| JournalPaths.WelcomeIsAdmitted | internal/acp/session_local_runs.go:433-472 | a message starts a new run if and only if its session is its owner's, its key is new, the session's runs have ended, and every hazard is this instance's own, in another session |
| JournalPaths.WelcomeIsAccepted | internal/acp/session_local_runs.go:411-518 | an owning instance then queues the run with exactly its two events and starts its goroutine with a live context |
| JournalPaths.SettlingRecords | internal/acp/session_local_runs.go:652-699 | in every reachable state a finish leaves a queued or running run in the asked state, its log longer by exactly the events of that end, a cancelled one cancelled, an ended one alone, and nothing else changed |
| JournalPaths.CancelDoes | internal/acp/session_local_runs.go:710-762 | a reported cancel answers cancel_requested with exactly one event and ends the context of a queued or running run; repeated it adds nothing; an ended run answers its end |
| JournalRuns.MessageIsExecuted | internal/acp/session_local_runs.go:520-557 | a welcome message leads to one call of Process under this instance's hazard, with exactly four events before it |
| JournalRuns.OrdinaryRunCompletes | internal/acp/session_local_runs.go:520-600 | from the message to the end: six events in order, one call, the run completed, no hazard left, the goroutine gone |
| JournalRuns.CompletionIsRecorded | internal/acp/session_local_runs.go:563-600 | an execution that Process completed under a live context ends completed, with the assistant's message and run.completed, its hazard cleared |
| JournalRuns.FailureIsRecorded | internal/acp/session_local_runs.go:563-592 | one that Process did not complete ends failed and keeps its hazard |
| JournalRuns.CancelledRunEnds | internal/acp/session_local_runs.go:559-562 | one that is cancelled ends cancelled, whatever Process hands back |
| JournalRuns.CancelBeforeStart | internal/acp/session_local_runs.go:622-633 | one that is cancelled before its start commits is never executed and ends cancelled |
| JournalRuns.DeadlineFails | internal/acp/session_local_runs.go:563-565 | one out of time ends failed |
| JournalRuns.LossEndsRuns | internal/acp/session_local_runs.go:102-159 | a lost lock, once noticed, or a close ends every context for good: executions end cancelled and keep their hazards, and nothing more is accepted |
| JournalRuns.UnreportedStartFails | internal/acp/session_local_runs.go:531-540 | a start whose commit goes unreported is on record with its hazard, is never executed, and ends failed |
| JournalRuns.UnreportedCompletionStays | internal/acp/session_local_runs.go:593-600 | a completion that goes unreported, or whose hazard cannot be cleared, stays a completion; the second finish changes nothing and the hazard stays |
| JournalRuns.SuccessorTakesOver | internal/acp/session_local_runs.go:42-100 | when no lock is held a new instance comes to serve; every active run is then failed with exactly that event and has a hazard, and ended runs are as they were |
| JournalRuns.ScanTakesActive | internal/acp/session_local_runs.go:70-91 | the scan of start-up takes exactly the runs that are active |
| JournalInvariant.RunKeeps | internal/acp/session_local_runs.go:33-100 | the invariant of tables, goroutines, fences and hazards holds after every sequence of steps of every number of instances |
| JournalSoundness.AcceptSound | internal/acp/session_local_runs.go:433-505 | accepting keeps the tables sound: rows follow their log, keys and receipts fit, hazards sit on latest runs |
| JournalSoundness.StartSound | internal/acp/session_local_runs.go:618-649 | so does the start of a run |
| JournalSoundness.FinishSound | internal/acp/session_local_runs.go:652-699 | so does settling a run |
| JournalSoundness.CancelSound | internal/acp/session_local_runs.go:710-762 | so does a cancellation request |
| JournalGrammar.RunEventsOrdered | internal/acp/session_local_runs.go:593-600 | in a written log no event of a run follows its terminal event and no kind occurs twice |
| JournalGrammar.AnswerThenCompleted | internal/acp/session_local_runs.go:679-690 | in a written log an assistant message and the run.completed of its run come as a pair, after a run.running |
| JournalStore.LocalSessionStore.CreateSession | internal/acp/session_local.go:190-199 | the insert-or-return statement and the title check do what the creation transaction says |
| JournalStore.LocalSessionStore.AcceptMessage | internal/acp/session_local_runs.go:411-518 | checks, inserts, two events, receipt and context map amount to the accept transaction; a dead probe loses ownership and cancels every context |
| JournalStore.LocalSessionStore.TransitionProbe | internal/acp/session_local_runs.go:603-617 | passes exactly for an open, owning store whose lock connection answers; otherwise loss is sticky |
| JournalStore.LocalSessionStore.TransitionCommit | internal/acp/session_local_runs.go:618-650 | the hazard insert, the updates and the two events amount to the start transaction |
| JournalStore.LocalSessionStore.Finish | internal/acp/session_local_runs.go:652-708 | the terminal transaction followed by the hazard delete on the lock connection, whose failure loses ownership |
| JournalStore.LocalSessionStore.CancelRun | internal/acp/session_local_runs.go:710-762 | the cancel transaction, and exactly when the run's context is cancelled |
| JournalStore.LocalSessionStore.InitializeRuns | internal/acp/session_local_runs.go:64-99 | the fence, then the recovery of each scanned run in order, stopping at the first error |
| JournalStore.LocalSessionStore.CancelContexts | internal/acp/session_local_runs.go:154-159 | the loop over active runs cancels every context and no other changes |
| JournalStore.RestartSettlesEverything | internal/acp/session_local_runs.go:64-99 | an undisturbed start-up leaves no run active: each is failed and keeps a hazard, and nothing is admitted until hazards are cleared |
| EventPaging.Events | internal/acp/session_local_runs.go:243-298 | refuses exactly the malformed or out-of-range queries, and otherwise returns the longest page that fits, with the last sequence number as cursor |
| EventPaging.PageIsStretch | internal/acp/session_local_runs.go:258-293 | a page is the stretch of the log right after the cursor, within limit and byte cap, and the longest such stretch |
| EventPaging.PageProgress | internal/acp/session_local_runs.go:286-292 | a page is non-empty if and only if a next event exists and fits a response alone |
| EventPaging.CatchUpGetsAll | internal/acp/session_local_runs.go:174-176 | with bodies at most half a response, polling a quiet log ends with the whole log |
| EventPaging.PollingSeesEachOnce | internal/acp/session_local_runs.go:243-298 | while others append, a client that polls with the returned cursor has collected each event exactly once and in order |
| EventPaging.JournalLogsOnlyGrow | internal/acp/session_local_runs.go:235-239 | the journal's logs are logs of that kind, at any two moments of any run |
| EventPaging.JournalPollingSeesEachOnce | internal/acp/session_local_runs.go:243-298 | polling the journal itself at any moments of any run collects each event exactly once and in order |
| Forwarding.JourneyIsChain | internal/acp/distributed_forwarder.go:353-403 | over arbitrary next hops a request travels one chain of nodes, is handled by the last at most, is forwarded at most as often as its hop count allows, and keeps its target |
| Forwarding.NextHopDecides | internal/acp/distributed_forwarder.go:353-390 | a node handles a request itself if and only if the next hop of its target is this node or blank, refuses it exactly for an unknown peer, a spent hop count or a missing endpoint, and else forwards it there |
| Forwarding.HopLimitHoldsExactly | internal/acp/distributed_forwarder.go:384-390 | the limit holds over every network if and only if the incoming header does not read as the largest 64-bit integer |
| Forwarding.LargestHeaderExceeds | internal/acp/distributed_forwarder.go:384-390 | a concrete ring with limit 8 on which the largest header is forwarded nine times |
| Forwarding.ReachesTarget | internal/acp/distributed_forwarder.go:377-382 | if next hops come nearer to the target within the limits, the request is executed, and by the target |
| Forwarding.HopHeaderRoundTrip | internal/acp/distributed_forwarder.go:420-433 | the count a node writes is the count the next one reads, with 64-bit wrap-around |
| TaskRouter.DistributedTaskRouter.ForwardDecision | internal/acp/distributed_forwarder.go:185-229 | decision, route table and counters after one call, as the entry decision function says |
| TaskRouter.DistributedTaskRouter.PickNode | internal/acp/distributed_forwarder.go:293-321 | the loop over the catalog and the round-robin counter do what node selection says |
| TaskRouter.SessionRouteStore.Get | internal/acp/distributed_forwarder.go:496-512 | a live route is returned; an expired one is deleted and nothing else changes |
| TaskRouter.StoredRouteIsFound | internal/acp/distributed_forwarder.go:496-524 | a stored route is found with its target up to its expiry and not after, other keys are found as before, and blank keys and targets leave no trace |
| TaskRouter.FirstPlacement | internal/acp/distributed_forwarder.go:210-228 | a session.start or session.message without a live route goes where the rules say; a session with a key placed on another node gets that route for the time to live, and no other placement sets one |
| TaskRouter.RouteIsSticky | internal/acp/distributed_forwarder.go:200-220 | until it expires no request changes a route, and every session.start, session.message, session.cancel and xworkmate.tasks.get without run ids of the session goes to its target |
| TaskRouter.SessionStaysPlaced | internal/acp/distributed_forwarder.go:200-228 | the same over any sequence of decisions within the life of the route |
| TaskRouter.FollowUpsCreateNothing | internal/acp/distributed_forwarder.go:200-209 | follow-ups never create or change a route and never advance a counter |
| TaskRouter.RestStaysHere | internal/acp/distributed_forwarder.go:199-212 | every other method, and lookups with run ids, are handled here and change nothing; so are cancels and lookups without a live route to another node |
| TaskRouter.FirstRuleWins | internal/acp/distributed_forwarder.go:269-291 | the first rule that lists the method or a star chooses, and without one nothing is chosen |
| TaskRouter.CandidatesAre | internal/acp/distributed_forwarder.go:293-343 | the candidates of a selector are exactly the other nodes whose role, zone and capabilities fit it |
| TaskRouter.FirstFitIsFirst | internal/acp/distributed_forwarder.go:302-311 | they come in the order of the catalog |
| TaskRouter.EntryIsRelay | internal/acp/distributed_forwarder.go:185-198 | a target chosen here is decided like one named by another node, so the network results hold from the first hop |
| TaskRouter.KeyDeterminesSelector | internal/acp/distributed_forwarder.go:345-351 | two selectors with one counter key are the same selector when one of them has no bar in its fields |
| TaskRouter.PicksRotate | internal/acp/distributed_forwarder.go:308-319 | while no request in between chooses among other candidates by the same counter, the nodes chosen for a target go round its candidates |
| TaskRouter.RoundRobinIsFairExactly | internal/acp/distributed_forwarder.go:269-319 | over every sequence of placements the numbers of times two candidates of a target are chosen differ by at most one, if and only if no method in use chooses among other candidates by the same counter |
| TaskRouter.RoundRobinIsFair | internal/acp/distributed_forwarder.go:308-319 | in particular for every selector without a bar in its fields |
| TaskRouter.RoundsStarve | internal/acp/distributed_forwarder.go:308-319 | otherwise there are sequences, of any number of rounds, in which one candidate is chosen in every round |
| TaskRouter.SharedCounterIsUnfair | internal/acp/distributed_forwarder.go:345-351 | two concrete rules whose selectors share a counter: with starts and messages in turn, the starts go to the same one of two nodes for any number of rounds |
| Delivery.CompletedMeansDelivered | internal/acp/rpc_handler.go:461-534 | with a known scope and required extensions, an answer is presented as finished successfully only when each extension that asks for a file has an artifact ending in it |
| Delivery.PassedOn | internal/acp/rpc_handler.go:461-500 | empty answers, answers without a scope, and answers that do not claim success are passed on unchanged |
| Delivery.ViolationIsPartial | internal/acp/orchestrator.go:1735-1749 | a claimed success against unsatisfied constraints becomes partly delivered |
| Delivery.ClaimIsPassedOn | internal/acp/rpc_handler.go:480-500 | a claimed success is passed on when its artifacts fulfil what is required or no files are asked for |
| Delivery.ClaimWaitsForArtifacts | internal/acp/rpc_handler.go:500-533 | any other claimed success is answered as running, pending and syncing, under its run and key |
| Delivery.UnknownStatus | internal/acp/rpc_handler.go:536-608 | an unknown status with artifacts is the running handle while the run is active here, and then completed or failed by what is required |
| Delivery.AdjudicatedExactly | internal/acp/rpc_handler.go:549-608 | artifacts of unknown status count as success if and only if extensions are required and each that asks for a file has one; otherwise the answer is a failure |
| Delivery.NothingMissing | internal/acp/rpc_handler.go:769-774 | the list of missing extensions is empty if and only if every extension that asks for a file has an artifact |
| Delivery.ImpliedExactly | internal/acp/rpc_handler.go:776-796 | artifacts that fulfil one list of extensions always fulfil another if and only if each asking member of the other is implied by one of the first |
| Delivery.MissingRequiredExtensions | internal/acp/rpc_handler.go:776-796 | the nested loops compute that list |
| Delivery.RequiredExtsAre | internal/acp/rpc_handler.go:732-767 | the required extensions are exactly those named by the lookup or the payload, normalised, each once |
| Delivery.MergedList | internal/acp/rpc_handler.go:750-767 | the loops over both lists compute the merged list |
| Delivery.NormalizeExtList | internal/acp/orchestrator.go:990-1006 | the loop computes the normalised extensions |
| Delivery.DotsAskForNothing | internal/acp/rpc_handler.go:776-782 | a concrete lookup whose only required extension is two dots is answered as completed without any artifact |
| Delivery.AllRequiredExactly | internal/acp/rpc_handler.go:549-608 | over all artifact lists of a payload of unknown status, an answer that claims success has a file for every required extension if and only if each of these asks for a file or is implied by one that does |
| RunRegistry.TaskSession.HandleTaskGet | internal/acp/rpc_handler.go:195-232 | answer and session state after one lookup: cached answer, fallback, or normalised payload put on record |
| RunRegistry.TaskSession.CacheIfTerminal | internal/acp/openclaw_run_registry.go:40-85 | scope check, artifact-wait guard, wait evidence and final answer, as the record function says |
| RunRegistry.TaskSession.GatewayUnconfirmedFallback | internal/acp/openclaw_run_registry.go:126-213 | cached answer, not found, interrupted after the deadline, or the running handle, and what is recorded |
| RunRegistry.TaskSession.HandleTaskCancel | internal/acp/rpc_handler.go:798-887 | the answer of a cancel and the state it leaves |
| RunRegistry.TurnStartsUndecided | internal/acp/orchestrator.go:70-79 | when a turn has begun no lookup is answered from the record and none gets a final answer from a silent gateway, whatever was recorded before |
| RunAnswers.StartedRunIsOpen | internal/acp/orchestrator.go:446-464 | whatever was recorded before, a started run is open: named, with its deadline, without a final answer |
| RunAnswers.StatusDecides | internal/acp/openclaw_run_registry.go:30-85 | an answer of status completed, failed, cancelled, interrupted or partially_delivered goes on record and is what every later lookup of the run gets; any other status leaves the record |
| RunAnswers.DeadlineDecides | internal/acp/openclaw_run_registry.go:144-213 | with the gateway silent an open run is answered by its running handle up to the deadline and by interrupted past it |
| RunAnswers.TaskStateDecides | internal/acp/rpc_handler.go:419-433 | an unknown status with artifacts is answered by the running handle exactly while the session's task is running and within its deadline |
| RunAnswers.NamedTaskIsNotRecorded | internal/acp/openclaw_run_registry.go:48-53 | in a session without a run, an answer to a lookup that names a task is never recorded |
| RunAnswers.NoRunIsNotFound | internal/acp/openclaw_run_registry.go:126-143 | a session that never started a run is not found, with the gateway's code and message or the defaults |
| RunAnswers.BlankLookupUsesSession | internal/acp/rpc_handler.go:235-276 | a blank lookup is judged by the session's run, key, scope and export contract |
| RunAnswers.ForeignCancelIsRefused | internal/acp/rpc_handler.go:808-820 | a cancel that names another run, key or provider is refused and changes nothing |
| RunAnswers.NativeCancel | internal/acp/rpc_handler.go:842-886 | a cancel without evidence of a wait is accepted if and only if the gateway confirms the abort of exactly this run, or of none; the record stays |
| RunAnswers.CancelAfterEnd | internal/acp/rpc_handler.go:821-828 | after a final answer a cancel is refused as already terminal, or confirmed again for an artifact-wait cancellation |
| RunAnswers.LookupDecidesCancel | internal/acp/rpc_handler.go:829-841 | right after a lookup a cancel ends the artifact wait if and only if the answer said agent end with artifacts syncing, field by field |
| RunRegistry.TaskSession.Start | internal/acp/orchestrator.go:446-464 | an accepted start names the run, sets its deadline, clears the terminal mark and records the handle |
| RunRegistry.HandleErasesAnswer | internal/acp/orchestrator.go:1954-1958 | the handle handed back erases any final answer recorded in the meantime: silent lookups then get the handle, and past the deadline `interrupted` |
| RunRegistry.HandBackLosesAnswer | internal/acp/orchestrator.go:1954-1958 | a concrete turn in which this happens: begin, start, a lookup answered as completed, the handle, a lookup |
| RunRegistry.WaitCancelExactly | internal/acp/rpc_handler.go:829-841 | a cancel in scope and without a final answer records the end of the artifact wait if and only if: for a run with an id (ids never reused), the latest native answer heeded for it showed agent end with artifacts syncing; without an id, the latest one heeded in the session did not and there is no session key |
| RunRegistry.EmptyRunNeedsNoEvidence | internal/acp/rpc_handler.go:829-829 | without a run id the evidence check holds of nothing: a concrete cancel is confirmed although nothing was looked up |
| RunRegistry.WaitCancelStands | internal/acp/openclaw_run_registry.go:54-56 | once recorded, it stays throughout a continuation, in any interleaving, if and only if there is no new turn or start, no other result handed back, and no silent lookup that names another run |
| RunRegistry.WaitCancelIsLost | internal/acp/orchestrator.go:1954-1958 | a concrete turn in which a recorded artifact-wait cancellation is lost to the handle, and one in which it is lost to a silent lookup of another run |
| RunRegistry.RecordDecides | internal/acp/openclaw_run_registry.go:134-162 | with a final answer on record, a silent lookup that it covers gets it and changes nothing; any other replaces it by what it gets, which is the same answer only for `interrupted` past the deadline |
| RunRegistry.OtherRunLosesAnswer | internal/acp/openclaw_run_registry.go:144-162 | a concrete session in which a silent lookup of another run replaces the recorded answer by the running handle |
| RunRegistry.FinalAnswerIsRecorded | internal/acp/openclaw_run_registry.go:40-85 | a final answer to a lookup in scope is on record if and only if it names this run or none |
| RunRegistry.FirstFinalAnswerStands | internal/acp/openclaw_run_registry.go:100-118 | after any history, the first final answer stays on record throughout a continuation if and only if no visit replaces it, and as long as none does every lookup it covers gets it, whatever the gateway says and however late |
| RunRegistry.RecordStaysExactly | internal/acp/orchestrator.go:1948-1958 | which visits replace it: a new turn or start, another result handed back, a silent lookup or wait-ending cancel that it does not cover |
| RunRegistry.ConfirmedCancelIsRecorded | internal/acp/rpc_handler.go:821-886 | a cancel is confirmed as cancelled only with an artifact-wait cancellation on record; a native abort counts only when it names exactly this run |
| RunRegistry.NewlyRecordedIsDelivered | internal/acp/rpc_handler.go:212-226 | a successful final answer newly put on record has its required files |
| RunRegistry.RecordedExtensionsAreIgnored | internal/acp/rpc_handler.go:267-269 | for every session, lookup and payload, the session's own recorded extensions add nothing to what is required |
| RunRegistry.RecordedExtensionsExactly | internal/acp/rpc_handler.go:235-276 | every payload completed with success that a lookup presents has the files the session recorded as required if and only if each of these extensions is implied by one the lookup or the payload names |
| RunRegistry.RecordedPdfIsNotDemanded | internal/acp/rpc_handler.go:267-269 | a concrete run that requires a PDF is recorded as completed with one Markdown file |
| Admission.RunConserves | internal/acp/openclaw_gateway_admission.go:83-136 | in every reachable state slots are the grants not yet released, at most maxActive, and the queue count is the callers in the queue, at most maxQueued |
| Admission.GuardsAreNeverTaken | internal/acp/openclaw_gateway_admission.go:138-154 | whenever a caller gives back its slot the occupied slots fall by exactly one, and whenever one leaves the queue the count does; nothing else lowers either |
| Admission.ExitsBalance | internal/acp/orchestrator.go:285-298 | over every exit of the start and both places that release: a refused caller never had a slot, every other has released its one grant exactly once, and when all have returned the gate is as new |
| Admission.RefusedOnlyWhenFull | internal/acp/openclaw_gateway_admission.go:91-106 | the first attempt fails if and only if maxActive grants are outstanding, the queue check if and only if maxQueued callers are in it |
| Admission.BoundsAreConfigured | internal/acp/openclaw_gateway_admission.go:35-61 | the bounds are the configured numbers, or five and twenty when these make no sense |
| Admission.FreeSlotStarts | internal/acp/orchestrator.go:257-298 | a request that finds a slot goes through every call of the start, with or without its detours, and has given the slot back when it returns |
| Admission.ErrorsGiveBack | internal/acp/orchestrator.go:285-297 | an error before or at any call of the start gives the slot back |
| Admission.QueuedRequests | internal/acp/openclaw_gateway_admission.go:100-135 | a request without a slot waits while there is room, gets the next slot that frees, or gives up and is refused |
| Demux.OneMessagePerCall | internal/acpagentadapter/agent.go:235-238 | in every interleaving a call is sent at most one message, and none while its id is pending |
| Demux.ReaderNeverBlocks | internal/acpagentadapter/agent.go:133-144 | neither delivering a response nor draining on exit ever meets a full channel |
| Demux.AnswersAreOwn | internal/acpagentadapter/agent.go:167-189 | a call is answered with a response of its own id or with the exit notice |
| Demux.NoCallIsForgotten | internal/acpagentadapter/agent.go:230-257 | a waiting call is pending or its message is on the way; after the exit its message is ready if and only if it had registered before the drain |
| Demux.CallIsAnswered | internal/acpagentadapter/agent.go:167-257 | a waiting call is answered by the line with its id, whatever its content |
| Demux.CallGoesOut | internal/acpagentadapter/agent.go:230-256 | a call registers under the next number and waits; a failed write or an ended context makes it fail and takes its entry away |
| Demux.ExitAnswers | internal/acpagentadapter/agent.go:133-144 | when the agent exits a waiting call gets the notice |
| Demux.StdioAgent.Dispatch | internal/acpagentadapter/agent.go:167-189 | a response reaches exactly the channel pending under its id, which is empty, and no other channel changes |
| Demux.StdioAgent.DrainOnExit | internal/acpagentadapter/agent.go:138-144 | every pending channel gets exactly the exit notice and the map ends empty |
| Demux.StdioAgent.Register | internal/acpagentadapter/agent.go:234-238 | a call gets an id never handed out before and an empty channel of its own |
| Demux.IdsDiffer | internal/acpagentadapter/agent.go:234-234 | ids made from different numbers are different |
| ArtifactLinks.AcceptedExactly | internal/acp/openclaw_artifact_download.go:360-379 | a path is accepted exactly when, trimmed and with slashes, it is non-empty, free of NUL and made of proper segments |
| ArtifactLinks.SafePathIsStable | internal/acp/openclaw_artifact_download.go:360-379 | cleaning again changes nothing, and an accepted path is a fixed point of path cleaning without empty, dot or dot-dot segments |
| ArtifactLinks.SafeScopeIsStable | internal/acp/openclaw_artifact_download.go:381-391 | the same for artifact scopes |
| ArtifactLinks.ScopesExactly | internal/acp/openclaw_artifact_download.go:381-391 | scopes are exactly the safe paths of three segments below tasks |
| ArtifactLinks.GrantedExactly | internal/acp/openclaw_artifact_download.go:48-79 | a link is granted if and only if its key, run, path and expiry are there and current, its scope safe or absent, and its signature right; and then for these |
| ArtifactLinks.HexRoundTrip | internal/acp/openclaw_artifact_download.go:393-414 | decoding an encoded signature gives its bytes back |
| ArtifactLinks.MintedLinkPasses | internal/acp/openclaw_artifact_download.go:294-339 | every minted link, read back before it expires with the same secret, passes the scope, path, expiry and signature checks for exactly its own fields |
| ArtifactSignatures.SignatureOpensOwnFields | internal/acp/openclaw_artifact_download.go:393-437 | without a MAC collision, and with fields free of newlines, any link that carries a minted signature and is granted is granted for the minted fields |
| ArtifactSignatures.SignatureOpensOnlyExactly | internal/acp/openclaw_artifact_download.go:393-437 | without a MAC collision, a link minted for a scope and path without newlines, or without any scope, opens no other fields, scoped or not, if and only if neither key nor run id has a newline between two visible characters and the run id hides no unscoped path |
| ArtifactSignatures.OtherReadingExactly | internal/acp/openclaw_artifact_download.go:416-437 | the same for the message itself: when it has a second reading the handler accepts |
| ArtifactSignatures.HiddenPathIsOpened | internal/acp/openclaw_artifact_download.go:52-79 | a concrete run id with an empty line: its signature opens another run's path without a scope |
| ArtifactSignatures.GrantedIsSigned | internal/acp/openclaw_artifact_download.go:393-414 | a granted link carries the MAC of exactly the fields it is granted for |
| ArtifactSignatures.TwoReadings | internal/acp/openclaw_artifact_download.go:416-437 | two concrete pairs of key and run id with the same signed message |

## Left out

- Clocks, commit outcomes, probe results, gateway replies and agent output are parameters, arbitrary in every theorem.
- PostgreSQL and its driver, body files and JSON: only atomic transactions, unique keys, immutable bodies and a size bound remain. A page whose body cannot be read (an error without a page) is not modelled.
- Run ids, request keys, digests and owners of the journal are opaque tokens; two different contents are assumed to have different digests.
- Table creation and migrations at start-up; only the legacy hazard insert, the scan and the recoveries are modelled.
- `initializeRuns` does not probe its lock, so an instance that lost it during start-up can still fail runs of its successor. The model contains this; it costs a run, none of the theorems.
- The snapshot handler and the order of the session list.
- HTTP, WebSocket and SSE handlers, bearer checks, proxies, adapters, memory, skills, jobs and vault: plumbing or easy claims.
- The gateway connection (`internal/gatewayruntime`): the gateway may answer anything.
- findTaskSession: lookups and cancels are modelled for the session they resolve to, and the `dsh` and `dsbot` branches are left out.
- Payload maps are records of the fields these parts read, passed by value: the rewriting of a shared map in place is not captured. `gatewayProviderId` and `resolvedGatewayProviderId` are one field, and so are the two export flags.
- The artifact export that precedes normalisation is part of the gateway's answer; download URLs and stripped inline content do not change artifact paths.
- `RunRegistry.Step.Return` takes any result, which covers the synchronous results of other providers.
- Which error an exit of an admitted start returns; panics inside it; the ticker notifications of the queue; the whole `acquire` call as one method, since other callers act between its steps.
- Agent notifications, requests made by the agent, and its shutdown.
- SHA-256 and HMAC are an uninterpreted function; URL query encoding is the identity on fields.
- Case folding covers ASCII letters only.
- Forwarding.JourneyIsChain: a network whose hop limit is 2^63 - 1 itself is left out, because its counter wraps around within the limit.
- Forwarding.ReachesTarget: delivery between two nodes either reaches the endpoint's node or is refused; timeouts are not modelled.
- TaskRouter.RoundRobinIsFairExactly: the counter is unbounded, so it does not model the wrap-around after 2^63 picks.
- TaskRouter.SessionStaysPlaced: decisions are taken one at a time; two first requests of a session decided at once may each choose a target.
- Demux.IdsDiffer: call numbers are unbounded, so ids that repeat after 2^64 calls are not modelled.
- EventPaging.CatchUpGetsAll: the envelope around a body is assumed to fit in the other half of a response.
- ArtifactSignatures.SignatureOpensOnlyExactly: a minted scope or path that itself contains a newline is left to the one direction that needs no condition on it, ArtifactSignatures.GrantedIsSigned.
- `session.close` removes the session object and with it every recorded answer; the theorems on a session's record speak of one session object.
