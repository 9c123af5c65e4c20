# hyper4k: a verified model of its concurrent core

hyper4k is an HTTP server and client: a Rust engine behind a C interface, and a Kotlin layer on top of it. This project
models the parts in which threads share state, and the header text that crosses the interface, and proves what they
promise over whole runs. `dafny verify dfyconfig.toml` checks all of it.

Five components are modelled.

1. **The per-request bridge and its executor** (`Bridge*.dfy`, `Executor*.dfy`). A request is a slot: a bounded queue fed
   by the network task, a gate that one settlement wins, a pause with a one-callback permit, and the `scheduled` and
   `running` flags by which a pool of workers shares it in slices of eight events. The slot is a transition system
   whose steps are one or several accesses of shared state: the gaps it keeps are named at the head of `Bridge.dfy`, the
   accesses it merges under "Left out". `BridgeObject.RequestSlot` is the code itself, in place, with other threads acting between any two of its
   steps, and each of its methods is proved to be a run of that system. `Executor` puts any number of slots and workers
   on one ready queue and is proved to refine it.
2. **Requests, admission and `free`** (`Client*.dfy`, `Free*.dfy`), and the attempt loop around each request's slot
   (`Retry.dfy`, `Attempt*.dfy`). `Free` follows `free` to its end: the wait for the bridge counter, the stop flag, its
   notification, and the join of workers that each stand somewhere in their loop, holding the lock of the ready queue or
   asleep on its condition variable.
3. **The connection pool of one key** (`Pool*.dfy`) and its single-flight shutdown (`Shutdown*.dfy`). Tasks interleave
   between any two entries they examine.
4. **The server's responder registry** (`Responder*.dfy`): any number of requests answered from any threads.
5. **Header text**: the encoder, the engine's parser, and the Kotlin lookup that scans raw bytes (`HeaderText.dfy`,
   `EncodeHeaders.dfy`, `Utf8RoundTrip.dfy`, `ResponseHeaders.dfy`, `HeaderRoundTrip.dfy`,
   `RequestHeaders.dfy`, `RequestObject.dfy`).

## Interleavings and disciplines

A run of a slot is allowed by a *discipline*. `Any` is every interleaving. The other two each exclude one kind of step,
and for each of them a theorem says that the exclusion is exact.

- `Tidy` excludes a *late Done*: a drained request reads `done_ready` although an event the caller sees was queued since
  its emptiness test and a worker is on its way to it. `BridgeTheorems.LateCallbackIff` proves that a callback can begin
  after Done exactly then, and `ClientGaps.CallbackAfterCleanUpIff` that one can begin after the request was cleaned up and
  taken off the bridge counter exactly then. What holds of callbacks otherwise needs no discipline: they never overlap,
  they come in order, and Done comes once (`BridgeTheorems.CallbackTrace`).
- `Fresh` excludes every read of `done_ready` by a drained request with an event queued. `BridgeTheorems.SuccessIsWholeIff`
  proves that a success is not the whole body exactly then.

Lost wakeups need no discipline: `BridgeWakeups.WakeupLostIff` names, for every step of every interleaving, the three
gaps in which a step loses one, and `NoStrandedWork` holds of every run that falls into none of them.

## Where the code does less than its comments say

- With an event queued between lines 357 and 358 of `bridge.rs`, `OnDone` reports success before the last chunk is
  delivered, and a callback follows `OnDone` (`BridgeGaps.EventAfterDone`). The wait of `free` for the bridge counter does
  not prevent it: a callback can begin after wait_zero, before the workers are joined (`ClientGaps.CallbackAfterZero`;
  exactly when, by `ClientGaps.CallbackAfterZeroIff`). It is the join that follows which makes `free` safe: nothing begins
  after `free` has returned, in any run (`Free.NoCallbackAfterFree`).
- Wakeups are lost in three gaps: the last copy of a slot is spent on an owner that is leaving
  (`BridgeGaps.DecidedOwnerLosesDone`); a slot is scheduled while a bouncing worker has not reset its flag
  (`BridgeGaps.LateBounceLosesDone`); a callback's CANCEL loses to an earlier settlement
  (`BridgeGaps.LateCancelLosesDone`). A Done stranded in one is never delivered, and `free` waits forever
  (`BridgeWakeups.StrandedForever`).
- A resume that reads `in_callback` and stores its permit after the callback has been dealt with leaves a permit that
  swallows a later pause (`BridgeGaps.LateStoreLeaksPermit`, `BridgeGaps.LeakedPermitSwallowsPause`; exactly then, by
  `BridgePause.PermitLeaksIff`).
- An abort published while a callback is open does not keep that callback's pause from parking the request
  (`BridgeGaps.AbortedRequestParks`; exactly then, by `BridgePause.ParksDiscardIff`).
- `free` does not always return. The executor's stop flag is set and notified without the lock of the ready queue
  (`executor.rs` 64-65): a worker that has read the flag as clear and does not sleep yet misses the notification, sleeps,
  and is never joined (`FreeSleep.FreeHangs`, with a client that never sent anything). This is so exactly when a worker
  stands there at that moment (`FreeSleep.FreeReturnsIff`, `FreeSleep.SleepsThroughStopIff`). The notification of queued
  work is not lost that way, because a push takes the lock (`FreeSleep.QueuedWorkIsMinded`).
- A parked slot is not always out of the ready queue. Exactly three kinds of step put it there
  (`BridgePause.ParkedInQueueIff`): a pause that finds a copy queued (`BridgeGaps.PauseFindsTicket`), a worker that leaves a
  paused slot with something queued (`BridgeGaps.PushBackLeavesFlagClear`), and a successful settlement
  (`BridgeGaps.DrainSchedulesParked`). With something queued it then goes round in it for as long as it is paused
  (`BridgeGaps.ParkedSlotSpins`).
- The arm of the attempt loop that reports TRUNCATED is never taken (`Attempts.RetryDecision`).
- An h1 connection can be leased by somebody else between the dialler's push and its own take, and the request that
  dialled fails (`PoolGaps.DialedConnectionIsStolen`; exactly then, by `PoolTheorems.DialerFailsIff`). Taking a sender that
  closed after it was found eligible makes the pool count a dead connection as live (`PoolGaps.StaleTakeOvercounts`);
  nothing else does (`PoolSafety.LiveGrowsIff`). The paused cap is no bound on paused streams
  (`PoolGaps.PausedCapIsNoBound`; passed exactly as `PoolTheorems.PausedPassesCapIff` says).
- A request past the pool's closed check when shutdown starts can leave a driver running
  (`ShutdownTheorems.ShutdownIsExhaustiveIff`).
- Two answers to one request can both be reported as delivered, exactly as `ResponderTheorems.SecondSuccessIff` says: a
  second answer inside the request's own callback (`ResponderTheorems.SecondAnswerAlsoSucceeds`), or an answer inside it
  after another thread's, and then the one that was reported first is lost (`ResponderTheorems.ReportedAnswerIsLost`).
- The raw header scan and the parsed map disagree on some blocks the engine never writes
  (`RequestHeaders.ScanAgreesWithMapIff` is the exact condition).

## Model

| member | source | states |
|---|---|---|
| `BridgeSafety.StepKeeps` | lib/src/client/bridge.rs:228-498 | every step of every thread keeps the slot's invariant, in every interleaving |
| `BridgeSafety.TidyStepKeeps` | lib/src/client/bridge.rs:284-373 | every step that opens no late Done keeps Done the last callback, with nothing the caller sees still to come after a reported success |
| `BridgeSafety.FreshStepKeeps` | lib/src/client/bridge.rs:357-360 | every step that reads done_ready with the queue still empty keeps a reported success a whole body |
| `BridgeTrace.TraceStepKeeps` | lib/src/client/bridge.rs:228-498 | every step of every thread keeps the log: callbacks paired and in order, one for each visible event handed over, at most one Done |
| `BridgeTheorems.CallbackTrace` | lib/src/client/bridge.rs:284-373 | in every interleaving callbacks of a request never overlap, begin once for each visible event handed over, headers first, in the peer's order, and Done begins at most once with the winning settlement; in every run without a late Done nothing follows it |
| `BridgeTheorems.RunReceives` | lib/src/client/handle.rs:797-869 | in every run what the task takes in is what the peer sent: the head of the response and every body frame with data, whole and in order |
| `BridgeTheorems.LateCallbackIff` | lib/src/client/bridge.rs:357-371 | in every interleaving, some continuation lets a callback begin after the Done about to be opened if and only if that Done is late |
| `BridgeTheorems.BodyIntegrity` | lib/src/client/bridge.rs:313-369 | in every run what was handed over is a prefix of what the peer sent, as the steps of the run say, and byte for byte what on_chunk got; a reported success is the whole of it, and on_chunk got the whole body, if and only if the queue is empty, which it is in every fresh run |
| `BridgeTheorems.SuccessIsWholeIff` | lib/src/client/bridge.rs:357-360 | in every interleaving, the success about to be reported covers everything the peer sent in the run if and only if the queue is still empty when done_ready is read |
| `BridgeTheorems.DrainLosesNothing` | lib/src/client/bridge.rs:431-453 | in every interleaving, a request settled as drained has handed over or still queues everything the peer sent in the run |
| `BridgeTheorems.GateIsFinal` | lib/src/client/bridge.rs:163-172 | the gate is claimed once: no run turns a drain into a discard or back |
| `BridgeTheorems.QueueConservation` | lib/src/client/bridge.rs:313-316 | queue, free permits and the producer's permit add up to the capacity, plus one once settled; the queue never outgrows the capacity |
| `BridgeTheorems.UncommittedUntilHeaders` | lib/src/client/bridge.rs:481-498 | until the headers are queued nothing was committed, queued or delivered, so a retry is invisible |
| `BridgeOutcome.CallbackResultDecides` | lib/src/client/bridge.rs:228-354 | a callback that cancels ends the slice and settles an open request as cancelled, one that pauses without a resume parks it, and every other result, a pause at the headers included, goes on and settles nothing |
| `BridgeOutcome.FirstSettlementIsReported` | lib/src/client/bridge.rs:421-453 | whoever settles an open request first decides in every continuation what its one Done reports, kind and protocol code, and whether it is drained or discarded |
| `BridgeOutcome.NothingBeginsAfterAbort` | lib/src/client/bridge.rs:313-320 | once a request is aborted no callback but Done begins again in any run, whatever is queued or still arrives |
| `BridgePause.ResumeOkUnparksOrIsRemembered` | lib/src/client/bridge.rs:400-414 | resume returns OK exactly when it ends a pause and schedules the slot or is remembered by the open callback, and otherwise changes nothing; between a callback and its reaction it is refused |
| `BridgePause.RefusedResumeStillParks` | lib/src/client/bridge.rs:324-351 | a resume refused there does not keep the request from parking |
| `BridgePause.EarlyResumeConsumesPause` | lib/src/client/bridge.rs:322-353 | a resume during a callback is consumed by that callback's pause, whatever other threads do in between, and discarded by any other result |
| `BridgePause.PermitLeaksIff` | lib/src/client/bridge.rs:406-408 | a step leaves a permit that belongs to no callback if and only if it is a resume's store after the callback was dealt with |
| `BridgePause.PermitOnlyInCallback` | lib/src/client/bridge.rs:344-353 | in every run without such a store a permit is set only while its callback is open or not yet acted on |
| `BridgePause.ParkedIsSilent` | lib/src/client/bridge.rs:305-312 | while a request is parked no callback of it begins or returns, not even Done |
| `BridgePause.DrainRespectsPause` | lib/src/client/bridge.rs:443-452 | settling releases a pause exactly when it discards |
| `BridgePause.ParksDiscardIff` | lib/src/client/bridge.rs:344-351 | a step parks an aborted request if and only if it enters the pause of a callback that was open when the abort was published, without a permit |
| `BridgePause.OnlyResumeOrAbortUnparks` | lib/src/client/bridge.rs:432-442 | a parked aborted request is released by a resume or a further abort and by nothing else |
| `BridgePause.ParkedInQueueIff` | lib/src/client/bridge.rs:292-351 | in every interleaving, a step puts a paused slot into the ready queue if and only if it enters a pause while a copy is queued, leaves a paused slot with work, or publishes a drain on a paused slot that is not scheduled |
| `BridgeWakeups.WakeupLostIff` | lib/src/client/bridge.rs:284-498 | in every interleaving, a step leaves deliverable work with nobody to deliver it if and only if it falls into one of three gaps |
| `BridgeWakeups.NoStrandedWork` | lib/src/client/bridge.rs:284-300 | after every run that falls into no gap, an unfinished, unpaused request with a queued event or a ready Done is queued, popped or owned |
| `BridgeWakeups.ScheduledMeansQueued` | lib/src/client/bridge.rs:455-466 | in every interleaving the scheduled flag means a copy is in the ready queue or with a worker, or a losing worker is about to reset it |
| `BridgeWakeups.StrandedForever` | lib/src/client/bridge.rs:357-370 | a stranded Done is delivered by no interleaving whatsoever |
| `BridgeWakeups.DoneStrandedIff` | lib/src/client/bridge.rs:431-453 | a step on a settled request strands its Done for good if and only if it falls into a gap |
| `BridgeWakeups.SliceIsBounded` | lib/src/client/bridge.rs:303-372 | each of the owner's steps lowers its remaining rank, and no other thread's step disturbs it |
| `BridgeWakeups.SettledFinishesWithin` | lib/src/client/bridge.rs:309-371 | a settled request with n queued events is finished after n / 8 + 1 slices that neither park nor cancel it, whatever other threads do |
| `BridgeGaps.EventAfterDone` | lib/src/client/bridge.rs:357-370 | a run in which a chunk callback begins after Done returned |
| `BridgeGaps.DecidedOwnerLosesDone` | lib/src/client/bridge.rs:288-293 | a run that reaches the first gap and strands Done |
| `BridgeGaps.LateCancelLosesDone` | lib/src/client/bridge.rs:327-343 | a run that reaches the third gap and strands Done |
| `BridgeGaps.LateBounceLosesDone` | lib/src/client/bridge.rs:288-291 | a run that reaches the second gap and strands Done |
| `BridgeGaps.LateStoreLeaksPermit` | lib/src/client/bridge.rs:406-408 | a run after which a parked request is given a permit |
| `BridgeGaps.LeakedPermitSwallowsPause` | lib/src/client/bridge.rs:344-351 | a run on from there in which the next callback's pause is swallowed although nobody resumed during it |
| `BridgeGaps.AbortedRequestParks` | lib/src/client/bridge.rs:344-351 | a run in which an aborted request is parked |
| `BridgeGaps.PushBackLeavesFlagClear` | lib/src/client/bridge.rs:292-299 | a run in which a worker puts a paused slot with a queued event back into the ready queue, without its scheduled flag |
| `BridgeGaps.PauseFindsTicket` | lib/src/client/bridge.rs:344-351 | a run in which a pause is entered while a copy of the slot is queued |
| `BridgeGaps.DrainSchedulesParked` | lib/src/client/bridge.rs:443-452 | a run in which a successful settlement queues a paused slot |
| `BridgeGaps.ParkedSlotSpins` | lib/src/client/executor.rs:92-99 | a reachable paused slot that any number of turns of the workers leaves exactly as it was, in the ready queue, with its event undelivered |
| `BridgeObject.RequestSlot.constructor` | lib/src/client/bridge.rs:502-541 | a new slot is the initial state of the transition system |
| `BridgeObject.RequestSlot.Settle` | lib/src/client/bridge.rs:431-453 | the winner claims and publishes; a loser only releases a pause it meant to abort |
| `BridgeObject.RequestSlot.Resume` | lib/src/client/bridge.rs:400-414 | status and new state of a resume |
| `BridgeObject.RequestSlot.Cancel` | lib/src/client/handle.rs:607-630 | refuses a settled request, otherwise settles it as cancelled |
| `BridgeObject.RequestSlot.Send` | lib/src/client/bridge.rs:481-498 | after room was found: queue if the gate is still open, otherwise return the permit |
| `BridgeObject.RequestSlot.TakeHead` | lib/src/client/bridge.rs:313-323 | the head leaves the queue and is dropped exactly when the request is discarded |
| `BridgeObject.RequestSlot.DeliverHead` | lib/src/client/bridge.rs:313-354 | pops, drops or delivers the head with other threads acting between any two steps, as a run of the system |
| `BridgeObject.RequestSlot.ReactToCallback` | lib/src/client/bridge.rs:326-354 | cancel, pause or go on; the slice goes on exactly when it says so, with the budget it had |
| `BridgeObject.RequestSlot.RunOwned` | lib/src/client/bridge.rs:303-372 | the budgeted loop, with other threads and other workers acting between any two steps, is a run of the system that ends with the decision to leave |
| `BridgeObject.RequestSlot.FinishSlice` | lib/src/client/bridge.rs:357-371 | the emptiness test and what follows it are a run of the system |
| `BridgeObject.RequestSlot.FinishEmpty` | lib/src/client/bridge.rs:358-369 | so are the read of done_ready and Done, with others acting before the read and during the callback |
| `BridgeObject.RequestSlot.Release` | lib/src/client/bridge.rs:293-298 | asks for another turn exactly when unfinished with more work |
| `BridgeObject.RequestSlot.RunSlice` | lib/src/client/bridge.rs:285-299 | a whole slice is a run of the system in any interleaving, keeps callbacks paired and in order, and the trace well formed unless it opened a late Done, bounces silently off an owned slot and is silent when parked |
| `Executor.Refines` | lib/src/client/executor.rs:57-101 | every step of the executor is one enabled step of one slot and leaves every other slot alone |
| `Executor.ExecStepKeeps` | lib/src/client/executor.rs:57-101 | tickets, popped copies and owners of all slots stay in agreement with the ready queue and the workers |
| `Executor.MutualExclusion` | lib/src/client/bridge.rs:285-293 | two workers are never inside the same slot |
| `ExecutorTheorems.EverySlotRuns` | lib/src/client/executor.rs:72-101 | in every run of the executor each slot goes through a run of its own system |
| `ExecutorTheorems.EveryRequestIsSound` | lib/src/client/executor.rs:72-101 | with any number of requests and workers, in every interleaving, every request's callbacks never overlap, are those of the events handed over in order, with at most one Done; what was handed over is a prefix of what its own peer sent in the run, and a success is all of it exactly when its queue is empty; nothing follows Done in tidy runs, and success is whole in fresh ones |
| `ExecutorTheorems.ExecWakeupLostIff` | lib/src/client/executor.rs:57-101 | in every interleaving of all requests and workers, a step loses a wakeup if and only if it falls into a gap of its own slot |
| `ExecutorTheorems.WorkIsQueuedOrOwned` | lib/src/client/executor.rs:57-101 | after every run that falls into no gap, deliverable work is in the ready queue or with a worker |
| `ExecutorTheorems.ReadyIsFifo` | lib/src/client/executor.rs:81-99 | the copy at position p moves up by exactly the number of pops |
| `ExecutorTheorems.RoundRobinBound` | lib/src/client/executor.rs:37-101 | the copy at position p heads the queue after p pops, which start at most 8p events beyond the slices already running |
| `ExecutorObject.BridgeExecutor.RunSlice` | lib/src/client/executor.rs:93-99 | a worker's slice of a slot it owns ends with the worker idle, as a run of the executor |
| `ExecutorObject.BridgeExecutor.WorkerLoop` | lib/src/client/executor.rs:72-101 | a worker's loop, with other workers, tasks and callers acting between any two of its steps, is a run of the executor that starts with the head of the queue; a stopped worker does nothing |
| `Client.ClientStepKeeps` | lib/src/client/handle.rs:383-549 | every step of every caller, worker and clean-up keeps the counters, the map and the slots in agreement |
| `ClientTheorems.AdmissionIsBounded` | lib/src/client/handle.rs:54-97 | with callers anywhere between the additions and their roll-backs, admitted requests and bytes never pass the ceilings, and each counter is admitted plus in transit |
| `ClientTheorems.ReservationCoversBody` | lib/src/client/handle.rs:494-501 | every call of a run reserves its own body and eight chunks of 64 KiB, and no reservation that is held passes the byte ceiling |
| `ClientTheorems.RefusalMeansFull` | lib/src/client/handle.rs:81-97 | with nobody in transit, a refusal happens exactly when the ceiling is reached |
| `ClientTheorems.DefaultsAdmitAtMost128` | lib/src/client/mod.rs:48-49 | with the default ceilings at most 128 requests ever hold a reservation |
| `ClientTheorems.CounterCoversCallbacks` | lib/src/client/bridge.rs:67-102 | the bridge counter counts exactly the accepted requests not yet cleaned up, and covers every request that has called back and is not finished |
| `ClientTheorems.FreeFindsNothing` | lib/src/client/handle.rs:346-371 | when wait_zero returns, the map is empty, both counters are zero and every request is refused or over |
| `ClientTheorems.NoCallbackAfterZero` | lib/src/client/handle.rs:346-356 | after every run without a late Done, from the moment wait_zero returns on a closed client no continuation begins or returns a callback |
| `ClientGaps.CallbackAfterCleanUpIff` | lib/src/client/bridge.rs:357-369 | for every request of every reachable client: when it is drained and reads done_ready, some continuation cleans it up, takes it off the counter and then begins a callback of it, if and only if the Done is late |
| `ClientGaps.CallbackAfterZeroIff` | lib/src/client/handle.rs:353-356 | when wait_zero returns, some request of the client can still call back if and only if some drained request has a visible event queued, is not paused, and its owner or a worker on its way gets to it |
| `ClientGaps.CallbackAfterZero` | lib/src/client/handle.rs:353-370 | a run from a new client in which a callback begins after wait_zero, before the workers are joined |
| `BridgeLate.StaysSilent` | lib/src/client/bridge.rs:303-372 | once such a request has left the map, a slot without such an event never begins a callback again and no step gives it one |
| `BridgeLate.CallsInTheEnd` | lib/src/client/bridge.rs:303-372 | and one with it is brought to a callback by workers alone |
| `Free.FreeStepKeeps` | lib/src/client/executor.rs:63-101 | every step of workers, callers and of free itself keeps each owned slot owned from exactly one worker's seat, and the client's counters, map and slots in agreement |
| `Free.FreeRunsClient` | lib/src/client/handle.rs:346-371 | every run of workers and free is, for the client, a run of the client |
| `Free.NoCallbackAfterFree` | lib/src/client/handle.rs:346-371 | in every run from a new client, late Dones or not, no callback is open when free returns and none begins or returns afterwards |
| `FreeJoin.JoinIsBounded` | lib/src/client/executor.rs:63-101 | once the stop flag is set the workers take no more steps in all than their positions allow, however much work is queued and however much arrives |
| `FreeSleep.QueuedWorkIsMinded` | lib/src/client/executor.rs:57-91 | in every run from a new client with at least one worker, until the stop flag is set, whenever a slot is in the ready queue some worker neither sleeps nor is about to |
| `FreeSleep.FreeHangs` | lib/src/client/executor.rs:63-91 | a run from a new client into a state from which no continuation lets free return |
| `FreeSleep.SleepsThroughStopIff` | lib/src/client/executor.rs:63-91 | in every reachable state with the stop flag set and not notified, some continuation of the notification leaves a worker asleep if and only if a worker then holds the lock having read the flag as clear |
| `FreeSleep.FreeReturnsIff` | lib/src/client/executor.rs:63-91 | when every request is over, the notification has a continuation in which free returns if and only if no worker holds the lock at that moment; if one does, none of its continuations returns |
| `FreeSleep.OverFromZero` | lib/src/client/handle.rs:340-356 | with nobody inside send when wait_zero returns, as free demands, every request is over from then on |
| `FreeSleep.JoinIsNeverStuck` | lib/src/client/executor.rs:63-101 | if no worker holds the lock when the stop is notified, in every continuation every worker that has not left can move, or waits for a resume that can, and when all have left free can return |
| `ClientObject.AdmissionLimits.constructor` | lib/src/client/handle.rs:62-77 | zero means the default ceiling: 1024 requests, 64 MiB |
| `ClientObject.AdmissionLimits.TryReserve` | lib/src/client/handle.rs:81-97 | reserves both or neither, exactly when both fit, going through the model's stages |
| `ClientObject.AdmissionLimits.Release` | lib/src/client/handle.rs:109-113 | gives back one place and the reserved bytes |
| `ClientObject.AdmissionLimits.ReserveThenRelease` | lib/src/client/handle.rs:81-113 | a release undoes its reservation |
| `ClientObject.BridgeCounter.Leave` | lib/src/client/bridge.rs:88-94 | the counter's step of the model; the waiter is woken exactly at zero |
| `Attempts.AttemptStepKeeps` | lib/src/client/handle.rs:677-790 | every step of the loop, of callers and of workers keeps the request: nothing committed before a response is handed over, the budget, what the peer saw, and who may settle as what |
| `Attempts.RetryDecision` | lib/src/client/handle.rs:760-784 | in every run the committed flag is false at every retry decision; the loop tries again, with one retry less, if and only if a retry is left and the request is provably unsent or its verb is GET, HEAD, PUT, DELETE, OPTIONS or TRACE, and otherwise settles as OUTCOME_UNKNOWN |
| `Attempts.OtherFailures` | lib/src/client/handle.rs:689-742 | a connection found closed costs a retry and nothing else and ends as CONNECT when none is left; a request that cannot be built ends as PROTOCOL; a failed acquire as what the pool said |
| `Attempts.HistoriesCount` | lib/src/client/handle.rs:677-790 | what the model records of sightings and acquires is what the steps of the run say |
| `Attempts.AcquiresAreBounded` | lib/src/client/handle.rs:686-702 | in every run at most max_retries + 1 connections are asked for |
| `Attempts.PeerSeesAtMostOnce` | lib/src/client/retry.rs:11-46 | in every run the peer sees a POST, PATCH, CONNECT or a verb the client does not know at most once, counting one that is aborted while it is being sent |
| `Attempts.UnknownIsAllTheCallerSees` | lib/src/client/handle.rs:770-783 | a caller told OUTCOME_UNKNOWN was told nothing else, and nothing was received |
| `Attempts.TruncatedMeansStarted` | lib/src/client/handle.rs:854-866 | a caller told TRUNCATED could have seen part of the response |
| `Attempts.NoAttemptAfterVisibleResponse` | lib/src/client/handle.rs:814-824 | once anything was queued for the caller no run asks for a connection or sends again |
| `Attempts.SlotRunsUnderLoop` | lib/src/client/handle.rs:651-790 | every run of the request is, for its slot, a run of the slot, so everything proved of slots holds under the loop |
| `AttemptObject.AttemptTask.constructor` | lib/src/client/handle.rs:685-686 | a new task is the start of the system for its verb, with the retries as its budget and nothing sent or seen |
| `AttemptObject.AttemptTask.AfterSendFailed` | lib/src/client/handle.rs:762-784 | tries again with a smaller budget if and only if nothing is committed, a retry is left, and the request is provably unsent or its verb safe to repeat, and settles otherwise |
| `AttemptObject.AttemptTask.AttemptLoop` | lib/src/client/handle.rs:677-790 | the loop is a run of the request that ends with a response handed over, a settlement or an abort, after at most max_retries + 1 acquires |
| `PoolSafety.CapStepKeeps` | lib/src/client/pool.rs:225-314 | every step keeps the open connections and a dial in flight within the cap; every step but a stale take keeps the counted ones |
| `PoolSafety.LiveGrowsIff` | lib/src/client/pool.rs:80-93 | the number of connections the pool counts as live grows if and only if one connects or a sender is taken that closed after it was found eligible |
| `PoolSafety.PoolStepKeeps` | lib/src/client/pool.rs:116-154 | every step keeps references, the dial lock and the ownership of every sender |
| `PoolTheorems.OpenConnectionsStayCapped` | lib/src/client/pool.rs:265-314 | in every run with any number of tasks, interleaved between any two entries they examine, the open connections and the one being dialled stay within max_conns_per_key |
| `PoolTheorems.CountedConnectionsStayCapped` | lib/src/client/pool.rs:285-293 | so do the connections the pool counts, in every run without a stale take |
| `PoolTheorems.OneDialer` | lib/src/client/pool.rs:273-278 | at most one task is inside the dial lock |
| `PoolTheorems.AcquireUnderLockDecides` | lib/src/client/pool.rs:280-295 | uninterrupted, it leases the first connection that can serve, dials only when none can and those that count are below the cap, and is refused only when none can and they are not |
| `PoolTheorems.H1SenderIsExclusive` | lib/src/client/pool.rs:240-251 | a leased h1 sender is not in its slot and is in no second lease |
| `PoolTheorems.NoLeaseLeaks` | lib/src/client/pool.rs:116-136 | once nobody holds or returns a lease its count is zero and an h1 sender that is not dead is back in its slot |
| `PoolTheorems.PausedBudgetIsHeld` | lib/src/client/pool.rs:138-154 | paused equals the guards held and active equals the leases outstanding |
| `PoolTheorems.EligibleIff` | lib/src/client/pool.rs:225-238 | in every reachable state an entry is found eligible if and only if it is really open, fewer requests than the cap hold a pause on it, and its sender is shared or leased by nobody |
| `PoolTheorems.CountedIff` | lib/src/client/pool.rs:80-93 | an entry counts against the cap of connections if and only if it is really open or is an h1 connection that closed under a lease |
| `PoolTheorems.PauseSpendsOwnConnection` | lib/src/client/bridge.rs:344-351 | a pause spends the budget of the connection the request is leased on |
| `PoolTheorems.H2BurstOpensOneConnection` | lib/src/client/pool.rs:273-314 | however many requests arrive at once, a healthy h2 server is dialled once |
| `PoolTheorems.DialerFailsIff` | lib/src/client/pool.rs:309-313 | the request that dialled fails to get its connection if and only if that is an h1 connection whose sender is out of its slot, and unless the entry is dead another request holds it |
| `PoolTheorems.PausedPassesCapIff` | lib/src/client/pool.rs:138-154 | a step takes the streams paused on a connection past the cap if and only if it pauses a request tied to it without a guard on it yet, at the cap |
| `PoolGaps.DialedConnectionIsStolen` | lib/src/client/pool.rs:309-313 | a run in which the request that dialled fails although its connection is up |
| `PoolGaps.StaleTakeOvercounts` | lib/src/client/pool.rs:253-263 | a run after which the pool counts two live connections with a cap of one |
| `PoolGaps.PausedCapIsNoBound` | lib/src/client/pool.rs:225-238 | a run from a new pool in which two requests sharing a connection both pause under a cap of one |
| `PoolObject.ConnEntry.constructor` | lib/src/client/pool.rs:297-308 | a new entry holds its sender and no lease |
| `PoolObject.ConnEntry.Closed` | lib/src/client/pool.rs:80-93 | reports closed as the model does; a leased h1 sender cannot be asked |
| `PoolObject.ConnEntry.Eligible` | lib/src/client/pool.rs:225-238 | eligible exactly if the peer is there, the paused streams are below the cap, and the sender is shared or in its slot |
| `PoolObject.ConnEntry.TakeLease` | lib/src/client/pool.rs:240-251 | takes the exclusive sender or shares the common one, or changes nothing |
| `PoolObject.ConnEntry.DropLease` | lib/src/client/pool.rs:116-136 | an open connection can be taken again, one whose peer is gone counts as closed, and the lease is returned either way |
| `PoolObject.ConnEntry.ReplaceGuard` | lib/src/client/bridge.rs:174-183 | a guard replaced on the same connection leaves the budget as it was |
| `PoolObject.Reuse` | lib/src/client/pool.rs:253-263 | leases the first entry that can serve and touches no other; without one it touches none |
| `PoolObject.CountLive` | lib/src/client/pool.rs:285-289 | counts the entries that are not closed |
| `Shutdown.ShutStepKeeps` | lib/src/client/pool.rs:320-358 | every step of winner, losers and late requests keeps handles taken once, joins in step, and every sleeper older than the notification |
| `ShutdownTheorems.OneSweeper` | lib/src/client/pool.rs:324-339 | exactly one caller sweeps once shutdown has started |
| `ShutdownTheorems.ReturnMeansJoined` | lib/src/client/pool.rs:328-357 | no caller returns before every driver taken was awaited and its entry marked dead, and none is awaited twice |
| `ShutdownTheorems.NoLoserSleepsForever` | lib/src/client/pool.rs:328-337 | after the winner is finished every losing caller can move, each move brings it nearer to returning, and nobody else takes it back |
| `ShutdownTheorems.ShutdownIsExhaustiveIff` | lib/src/client/pool.rs:339-353 | every driver is joined in every run if and only if no request was past the closed check when the flag went up |
| `ResponderSafety.ServerStepKeeps` | lib/src/lib.rs:289-350 | every step of every thread and handler keeps the registry's invariant |
| `ResponderTheorems.NoCrossDelivery` | lib/src/lib.rs:622-638 | a request is only ever answered with a response addressed to it, and never with the stand-in of the busy slot |
| `ResponderTheorems.CallIsGiven` | lib/src/lib.rs:588-684 | a call is under way with exactly what it was given, and is refused at once for id 0 and while a stream is active |
| `ResponderTheorems.DeliveryKeepsPayload` | lib/src/lib.rs:622-638 | what was given goes unchanged into the slot of the own callback if that is free and into the channel from anywhere else; a second delivery from the own callback sends the stand-in |
| `ResponderTheorems.ResultWasGiven` | lib/src/lib.rs:289-350 | in every run what a client gets was given by a call of that run for that very request: a whole response or the head of a stream, status and headers included |
| `ResponderTheorems.AtMostOneSuccessPerRoute` | lib/src/lib.rs:622-647 | at most one delivery succeeds through the slot and one through the channel; a request never answered in its own callback has at most one |
| `ResponderTheorems.SlotOnlyInOwnCallback` | lib/src/lib.rs:625-628 | only a delivery to the request whose callback runs on the thread can go through the slot |
| `ResponderTheorems.AnswerIsSlotElseChannel` | lib/src/lib.rs:337-347 | the client gets the slot's delivery, and the channel's only if there is none |
| `ResponderTheorems.WaitingIsAnswerable` | lib/src/lib.rs:341-346 | a waiting handler can still be answered, so the branch for a dropped sender is never taken |
| `ResponderTheorems.RegistrationDoesNotLeak` | lib/src/lib.rs:229-245 | no registration outlives its request |
| `ResponderTheorems.StaleResponderIsRefused` | lib/src/lib.rs:640-647 | in every run a responder whose request is over accepts nothing more |
| `ResponderTheorems.SecondSuccessIff` | lib/src/lib.rs:622-647 | in every state, a step makes a second delivery to a request succeed if and only if it is a send that finds the receiver alive after the slot was filled, or fills the slot inside the request's own callback after a send got through |
| `ResponderTheorems.OneSuccessWithout` | lib/src/lib.rs:622-647 | so a request has at most one success in every run without such a step |
| `ResponderTheorems.SecondAnswerAlsoSucceeds` | lib/src/lib.rs:625-636 | a run in which two answers inside a callback both succeed and the client gets the first |
| `ResponderTheorems.ReportedAnswerIsLost` | lib/src/lib.rs:625-647 | a run in which another thread's answer is reported as delivered, the callback's answer then is too, and the client gets the callback's |
| `ResponderObject.Registry.constructor` | lib/src/lib.rs:171-192 | a new registry is the initial state |
| `ResponderObject.Registry.DeliverThroughChannel` | lib/src/lib.rs:640-647 | succeeds exactly when both ends of the channel exist |
| `ResponderObject.Registry.DeliverResponse` | lib/src/lib.rs:622-638 | succeeds exactly when the slot or the channel takes it, and what was given is then where it belongs |
| `ResponderObject.Registry.Respond` | lib/src/lib.rs:588-620 | its code for every state, one success more exactly when it returns 1, the response given then in the slot or the channel, and a run of the model |
| `ResponderObject.Registry.Begin` | lib/src/lib.rs:658-696 | its code for every state; the head of the stream as given is then in the slot or the channel; the responder is active afterwards exactly if it was before or the call succeeded |
| `ResponderObject.Registry.Finish` | lib/src/lib.rs:757-766 | ends an active stream once and refuses afterwards |
| `ResponseHeaders.TrimAscii` | lib/src/lib.rs:828-836 | trims ASCII whitespace at both ends |
| `ResponseHeaders.ParseHeaders` | lib/src/lib.rs:793-826 | under every name the map holds exactly the values of the lines that are headers, in order |
| `ResponseHeaders.BadLineDropsOnlyItself` | lib/src/lib.rs:815-822 | a line that is no header changes nothing about the others, wherever it stands |
| `ResponseHeaders.KeptHeadersAreLegal` | lib/src/lib.rs:810-823 | every header kept has a token name without capital letters and a legal, trimmed value |
| `ResponseHeaders.AdmittedBytes` | lib/src/lib.rs:818-819 | a name is visible ASCII without the seventeen delimiters, at most 65535 bytes; a value is anything without control bytes other than the tab |
| `HeaderText.FoldedName` | lib/src/lib.rs:818 | folding leaves no capital letter and the name the same up to case |
| `ResponseHeaders.LineRoundTripsIff` | lib/src/lib.rs:799-823 | a written line is read back as itself if and only if its name is a token and its value legal and trimmed |
| `EncodeHeaders.Measure` | src/nativeMain/kotlin/hyper4k/Hyper4kServer.kt:443-451 | computes the buffer size, and reports ASCII if and only if every name and every value is |
| `EncodeHeaders.SizeFits` | src/nativeMain/kotlin/hyper4k/Hyper4kServer.kt:443-476 | the size is one more than is written, unless nothing is |
| `EncodeHeaders.Fill` | src/nativeMain/kotlin/hyper4k/Hyper4kServer.kt:463-476 | the fast path writes inside its buffer and produces the joined text |
| `EncodeHeaders.JoinHeaders` | src/nativeMain/kotlin/hyper4k/Hyper4kServer.kt:452-460 | the fallback builds the same text |
| `EncodeHeaders.Encode` | src/nativeMain/kotlin/hyper4k/Hyper4kServer.kt:432-477 | on every input both paths produce the UTF-8 of the joined text |
| `Utf8RoundTrip.DecodeUndoesUtf8` | src/nativeMain/kotlin/hyper4k/Hyper4kServer.kt:460 | a decoder written apart from the encoder reads every text back, each lone surrogate as U+FFFD and everything else as it was |
| `HeaderRoundTrip.HeadersRoundTripIff` | src/nativeMain/kotlin/hyper4k/Hyper4kServer.kt:432-477 | the engine reads back exactly the headers written, in order, names folded, if and only if every header is clean |
| `HeaderRoundTrip.EachPairStandsAlone` | src/nativeMain/kotlin/hyper4k/Hyper4kServer.kt:463-476 | without newlines inside, each header contributes what its own line does |
| `HeaderRoundTrip.EncodeAndParse` | lib/src/lib.rs:793-826 | a clean map comes back with, under every name, exactly the values given for it up to case, in order |
| `RequestHeaders.ScanAgreesWithMapIff` | src/commonMain/kotlin/hyper4k/Model.kt:35-77 | the scan answers every query as the parsed map does if and only if no name has blanks around it and first values are trimmed alike |
| `RequestHeaders.EngineBlocksAgree` | lib/src/lib.rs:297-303 | every block the engine writes is such a block |
| `RequestHeaders.VerticalTabDisagrees` | src/commonMain/kotlin/hyper4k/Model.kt:68-72 | a block on which the two differ |
| `RequestObject.ParseEntries` | src/commonMain/kotlin/hyper4k/Model.kt:35-47 | one entry per name up to case, each with all its values in order |
| `RequestObject.MappedIsFirst` | src/commonMain/kotlin/hyper4k/Model.kt:57-59 | the map's answer is the first of all values under that name |
| `RequestObject.IndexOfColon` | src/commonMain/kotlin/hyper4k/Model.kt:86-90 | the first colon of the line, or -1 |
| `RequestObject.MatchesIgnoreCase` | src/commonMain/kotlin/hyper4k/Model.kt:93-103 | the same length, and at every place the same byte or the same ASCII letter in the other case |
| `HeaderText.SameNameIff` | src/commonMain/kotlin/hyper4k/Model.kt:93-106 | names count as the same if and only if they are equal byte for byte up to the case of ASCII letters |
| `RequestObject.ScanValue` | src/commonMain/kotlin/hyper4k/Model.kt:68-72 | the value without the blanks around it |
| `RequestObject.ScanHeader` | src/commonMain/kotlin/hyper4k/Model.kt:60-77 | the loops over raw bytes answer with the first row of that name |
| `RequestObject.Request.Headers` | src/commonMain/kotlin/hyper4k/Model.kt:32-33 | parses once and keeps the map |
| `RequestObject.Request.Header` | src/commonMain/kotlin/hyper4k/Model.kt:56-77 | the map's answer if parsed, else the scan's; an answer exactly if some row has the name up to ASCII case; on an agreeing block the two are one |

## Left out

- hyper, tokio, rustls, sockets, TLS, proxies and DNS: connecting, sending, body frames and peers closing are steps the
  environment takes at any moment; whether a failed send was provably unsent is an oracle assumed to be honest.
- Time: a timeout is a settlement that may happen at any moment; waiting for the bridge counter is a step that is enabled once
  it is zero.
- Integer widths: ids and counters are unbounded; the 64-bit wrap of responder ids and its skip of 0 are not modelled.
- Error messages, log text and the C struct layout.
- Several accesses in one step: clearing `running`, the reads of `finished` and the queue after it, and the push-back to
  the ready queue (`bridge.rs` 293-298 and `executor.rs` 95-98); a settlement's writes after its claim; the test of
  the permit with `enter_pause` and its guard; the removal of an event with its permit and the opening of its callback;
  a push with its test of the pause flag; the start of a slice with its reset of `scheduled`.
- URL and method parsing, the building of the request, and redirects.
- `hyper4k_response_write`: backpressure on the body of a streaming response.
- The Kotlin client's high-water loop, its coroutine dispatchers and the server's request dispatcher.
- In `Free`, the order in which the ready queue hands out slots, which is in `Executor`; the shutdown of the pools between
  the wait and the drop of the runtime, which is in `Shutdown`; and wake-ups of a condition variable that nobody notified,
  which the standard library permits and which would end the hang.
- The pool across several keys, and idle connections being removed from the list; a connection that is dead stays listed.
- Size limits of the engine's header map; a name longer than 65535 bytes is refused as in the source.
- Blocks with bytes above 127 in the Kotlin lookup, and names outside ASCII: decoding and Unicode case folding are not
  modelled. The engine writes ASCII only.
- One `Look` of the pool merges the reads of `dead`, the sender, the paused count and the slot of one entry.
- BridgeTheorems.CallbackTrace: that nothing follows Done holds of runs without a late Done, because each late Done can be followed; `BridgeTheorems.LateCallbackIff` is exact.
- BridgeWakeups.NoStrandedWork: holds of runs that fall into no gap; `BridgeWakeups.WakeupLostIff` is exact.
- ExecutorTheorems.EveryRequestIsSound: as for CallbackTrace.
- ExecutorTheorems.WorkIsQueuedOrOwned: as for NoStrandedWork; `ExecutorTheorems.ExecWakeupLostIff` is exact.
- ClientTheorems.NoCallbackAfterZero: holds of runs without a late Done; `ClientGaps.CallbackAfterZeroIff` is exact, and after `free` has returned `Free.NoCallbackAfterFree` holds of every run.
- FreeSleep.JoinIsNeverStuck: holds of runs in which no worker holds the lock when the stop is notified; `FreeSleep.FreeReturnsIff` is exact.
- ClientObject.AdmissionLimits.TryReserve: one caller that nobody interrupts; the interleaved reservation is in `Client`.
- PoolTheorems.CountedConnectionsStayCapped: holds of runs without a stale take; `PoolSafety.LiveGrowsIff` says exactly which steps make the count grow.
- PoolTheorems.AcquireUnderLockDecides: a decision that nobody interrupts; interrupted, each entry is examined at its own moment and only the cap of `PoolTheorems.OpenConnectionsStayCapped` remains.
- PoolObject.Reuse: one scan that nobody interrupts; the interleaved scan is in `Pool`.
