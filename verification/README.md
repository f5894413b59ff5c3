# Verified model of the proxy sampler

The program keeps long-running *sampling sessions*: a worker per session probes a proxy at a cadence,
saves a control row and an address inventory in Postgres, and hands one event per tick to a bounded
asynchronous writer that batches events into ClickHouse. Runs expand a proxy-URL template into many
sessions and report on the pool of egress addresses behind them. This project models the parts of it
whose correctness spans several functions or several goroutines, and proves what they promise.

## How the project is laid out

* **Lifecycle protocol** (`Supervisor*.dfy`, `SamplingWorker.dfy`, `SessionStore.dfy`). `Supervisor.dfy`
  is a state machine: one action per critical section, store call or channel operation, for any number
  of concurrent calls, workers and sessions, with failures, crashes and restarts. `SupervisorInvariant`
  states what holds between any two actions, `SupervisorFrames`, `-Calls`, `-Effects`, `-Deletes`,
  `-Workers`, `-Environment` and `-CleanUp` show which actions keep it, `SupervisorSafety` draws the
  conclusions over whole runs, `SupervisorLocks` shows that waiting for locks is never circular,
  `SupervisorOutcomes` and `SupervisorRows` say what the outcome of a call and the change of a row mean, and
  `SupervisorSamples` and `Delivery` follow the samples on their way to ClickHouse. `CleanUpRace.dfy`
  shows what a careless clean-up does (see below), with `Continuations.dfy`, which extends a run from any
  reachable state.
  `PoolGrowth.dfy` connects the stored samples back to the control row. `OrderedLocks.dfy` is the in-place
  de-duplication that orders the locks, `SupervisorObject.dfy` and `WorkerObject.dfy` are the same critical
  sections and the same tick as methods that change an object's fields.
* **Asynchronous writer** (`SampleWriter.dfy`, `WriterLifecycle.dfy`, `WriterOutcomes.dfy`, `WriterObject.dfy`): the run loop as
  functions on the channel buffer and the loop's variables, the close protocol around it as a state machine,
  and the writer as an object whose methods are proved against the functions. The lifecycle protocol embeds
  the same run loop, so the flush barrier that deletion relies on is the one proved here.
* **Enrichment cache** (`SingleFlight.dfy`, `Lookups.dfy`, `EnrichmentObject.dfy`): reference-counted keyed
  tokens, the double-checked time to live and the process-wide semaphore.
* **Run renames** (`VariantName.dfy`, `RenameCascade.dfy`): the cascade under READ COMMITTED with row locks.
* **Tick aggregate** (`Aggregate.dfy`, `ProbeErrors.dfy`), **variation expansion** (`Template.dfy`, `Planning.dfy`,
  `Expansion.dfy`, `Expand.dfy`), **pool report** (`PoolReport.dfy`, `PoolStatistics.dfy`, `Chao1.dfy`,
  `HonorReport.dfy`, `HonorMeaning.dfy`, `BuildReport.dfy`), **stickiness** (`Stickiness.dfy`), **classification**
  (`Classify.dfy`), and three small supports (`Common.dfy`, `Sorting.dfy`, `Folding.dfy`).

Assumed throughout: a store call has its full effect or none and its outcome is known to the caller, the
clock is monotone, session ids are fresh, and probe addresses are already unmapped. A failed ClickHouse
batch may or may not have been kept; both are allowed. Text primitives that depend on Unicode tables
(trimming, lower-casing, case folding, the letter-or-digit test) are parameters.

## What a careless clean-up breaks

A request that creates a session and then fails to start it stops the new row, or else deletes it, without
the session's operation lock (`internal/api/server.go:357-362`). By then somebody else may have started a
worker for the session. Wherever such a clean-up acts while a live, uncapped worker of the session ticks, the
run can go on so that a deletion returns nil and is then undone by a new sample, and, if it stopped the row,
so that sequence_offset + samples_taken runs ahead of the committed ticks. `CleanUpRace` proves this for
every such state, and has two runs made of ordinary requests that get there. The main results of the lifecycle
protocol therefore hold in *careful* runs: every clean-up that finds the row running acts while the session
has no owner, that is, no worker that could tick and no call about to publish one. Careful is exact: the
protocol's invariant holds throughout a run if and only if the run is careful, and a clean-up that took the
session's lock and found no worker in the map would always be careful. History, deletions being remembered,
capped workers staying idle and the absence of deadlock do not depend on it.

## Other remarks

Comments of the program that its code does not bear out: `internal/variation/run.go:91-94` and
`internal/variation/name.go:10-11` describe the cascade as comparing a child's text with a generated name;
the code uses the stored flag, and so does the model. `streamPoolIPsSQL` takes the minimum of `first_seen`
as it is, while the report skips zero times; the model follows the report.

## Model

| member | source | states |
|---|---|---|
| SupervisorSafety.StepKeepsInv | internal/sampler/supervisor.go:122-470 | Every action of every call, worker, writer step, failure and crash keeps the invariant tying worker map, live goroutines, held locks, waiting recoveries, samples in flight and durable rows together, except exactly a clean-up that acts on a running row while somebody owns the session. |
| SupervisorCleanUp.CleanUpKeepsInv | internal/api/server.go:357-362 | The row stop or row delete of a failed creation keeps the invariant if and only if the row does not run or nobody owns the session. |
| SupervisorCleanUp.GuardUnderLock | internal/sampler/supervisor.go:440-470 | Under the session's operation lock that guard is known to hold as soon as the map has no worker for the session. |
| SupervisorSafety.InvariantExactlyWhenCareful | internal/api/server.go:357-362 | The invariant holds in every state of a run if and only if every clean-up of the run acts under the guard. |
| CleanUpRace.HarmResurrects | internal/api/server.go:357-362 | The converse for deletions: after any clean-up that acts while the session has a live uncapped worker, with its lock free and the supervisor not closing, the run can go on to a state in which the session's deletion returned nil and the session has a queued sample and a worker that ticks. |
| CleanUpRace.HarmMiscounts | internal/api/server.go:357-362 | The converse for the count: after any clean-up that stops the row under such a worker, the run can go on to a state in which sequence_offset + samples_taken exceeds the committed ticks, if cap and column leave room for two more samples. |
| CleanUpRace.CarelessCleanUpResurrects | internal/api/server.go:357-362 | A run in which a session deleted with result nil has an event in the writer's queue and a worker that goes on ticking. |
| CleanUpRace.CarelessCleanUpMiscounts | internal/api/server.go:357-362 | A run in which sequence_offset + samples_taken is three after two committed ticks. |
| SupervisorSafety.DeletionIsFinal | internal/sampler/supervisor.go:331-415 | In careful runs, once a deletion returned nil for a session, in that and every later state there is no row, no sample stored, batched or queued, no worker able to tick, and no call about to publish one. |
| SupervisorSafety.DeletionReturns | internal/sampler/supervisor.go:347-356 | The returning action of a successful deletion covers exactly the ids it was called with, and all of them are already gone. |
| SupervisorSafety.MissingIsGone | internal/sampler/supervisor.go:331-356 | A session without a row has no sample anywhere and nothing that could produce one, because rows are deleted last; the exception are sessions whose row a clean-up deleted under their samples. |
| SupervisorDeletes.FreshFence | internal/ch/writer.go:159-182 | When a deletion sends its barrier, no event of its sessions is behind it in the queue. |
| SupervisorEnvironment.DrainKeepsFence | internal/ch/writer.go:206-251 | Every step of the run loop keeps events of those sessions from being behind the barrier, and leaves none queued or batched when it answers it. |
| SupervisorSafety.AnsweredBarrierClears | internal/sampler/supervisor.go:345-350 | When a deletion's barrier has been answered, no event of its sessions is queued or batched. |
| SupervisorSafety.LifetimeNumbering | internal/sampler/worker.go:189-248 | In careful runs, at every moment sequence_offset + samples_taken is the number of ticks ever committed, the k-th of which carried number k, and samples_taken respects the cap, across stop, finish, re-enable, recovery and restart. |
| SupervisorSafety.HistoryIsPrefix | internal/db/sessions.sql.go:128-142 | A support for LifetimeNumbering: the committed ticks it counts are only ever extended by a step, never taken back or renumbered. |
| SamplingWorker.TickKeepsAgreement | internal/sampler/worker.go:189-248 | One committed tick keeps row, memory and history in agreement and carries the next lifetime number, with the 32-bit conversions of the code. |
| SamplingWorker.PrepareSynced | internal/sampler/worker.go:97-130 | A worker prepared from a row that agrees with history is in step with it. |
| SupervisorEnvironment.FoldKeepsAgreement | internal/db/sessions.sql.go:128-142 | Folding the finished life into the offset keeps the lifetime count equal to the committed ticks. |
| SessionStore.UpsertHitsSum | internal/db/sessions.sql.go:584-589 | The upserts of one tick add exactly that tick's hits to the inventory's total. |
| SupervisorSafety.SingleSyncedOwner | internal/sampler/supervisor.go:163-196 | Under the invariant, at most one goroutine is inside Run per session, no prepared worker is run by two, and each matches its running row or is capped and outside a tick. |
| SupervisorSafety.IdleForever | internal/sampler/worker.go:134-187 | A capped worker outside a tick never ticks again, including one handed back on a finished row. |
| SupervisorSafety.FailedStopKeepsOwnership | internal/sampler/supervisor.go:208-327 | A stop that had the lock and failed reports that restoring failed, or leaves the session owned: by the worker it put back, by a recovery still waiting for the lock, or the restoring read, whose result the outcome carries, found no row or one that was not running. |
| SupervisorOutcomes.StopWrites | internal/sampler/supervisor.go:255-271 | The store call of a stop, with or without a worker ended before, leaves the row absent or not running: a running row becomes exactly that row stopped and the stop reports success, otherwise nothing changes and it reports not running. No other row changes. |
| SupervisorOutcomes.StopOkMeansStopped | internal/sampler/supervisor.go:200-211 | In every run a stop reports success only after it has itself set the running row to stopped. |
| SupervisorOutcomes.OutcomeHasCause | internal/sampler/supervisor.go:122-470 | In every run each outcome a call reports, success or one of the errors, has its cause in an earlier step of that very call: a start that succeeds has seen or published a worker, not found and not running were read, closed means closing, a reported recovery was scheduled, and other errors come from a failed store call or wait, a canceled process or a barrier answered with an error. |
| SupervisorOutcomes.StopCancels | internal/sampler/supervisor.go:237-251 | A stop cancels the owned worker and waits for it, or goes to the row when there is none. |
| SupervisorOutcomes.CallEnds | internal/sampler/supervisor.go:298-328 | A call ends only without locks; a recovery retries until the session is settled or the process ends, and a request that could not start its session cleans up first. |
| SupervisorOutcomes.ShutdownAdmitsNobody | internal/sampler/supervisor.go:429-470 | After the close began no call gets a lock, and after that or the end of the context no session gets a worker. |
| SupervisorRows.RowTransitions | internal/db/sessions.sql.go:128-160 | Every change of a control row has its author: a stop or clean-up stops it, a worker of the session finishes it, a re-enable starts a new life measured from now with the samples folded into the offset, a deletion or clean-up removes it, and otherwise only ticks of its workers move its counters. |
| SupervisorRows.FinishedMeansCapped | internal/sampler/worker.go:162-187 | A row becomes finished only by a worker of the session that has reached a cap. |
| SupervisorRows.ReenableStarts | internal/db/store.go:105-118 | Re-enabling a resting row starts a new life, unless the folded counter leaves its column. |
| SupervisorRows.TopDecides | internal/sampler/worker.go:134-170 | At the top of its loop a worker ends exactly when told to, and otherwise starts a tick exactly when both caps leave room for it, and goes on to finish when not. |
| SupervisorRows.TickEmits | internal/sampler/worker.go:214-243 | A saved tick is followed by a valid event with the number and count of the committed tick and exactly the slots of the sample. |
| SupervisorRows.TickCounts | internal/sampler/worker.go:220-242 | A saved tick adds one sample, its successful probes and per address its hits to its own row, and touches no other. |
| SupervisorRows.EnqueueOffers | internal/sampler/worker.go:243-246 | The tick's event becomes the newest command exactly if the writer accepts, the event is valid and there is room; otherwise it is dropped. |
| SupervisorLocks.NoDeadlock | internal/sampler/supervisor.go:420-470 | In every run, behind every wait for a session's lock there is a lock holder that does not wait for a lock. |
| OrderedLocks.DistinctOfSorted | internal/sampler/supervisor.go:373-381 | Dropping repeats from a sorted sequence leaves a strictly increasing one over the same ids. |
| OrderedLocks.DedupeInPlace | internal/sampler/supervisor.go:373-381 | The loop that overwrites the slice it reads leaves exactly the distinct elements of the original in its prefix. |
| OrderedLocks.LockSequence | internal/sampler/supervisor.go:364-383 | A batch deletion locks a strictly increasing sequence over exactly the ids asked for. |
| Sorting.IncreasingUnique | internal/sampler/supervisor.go:367-372 | Overlapping deletions take shared locks in the same order: a set of ids has one increasing order. So have the rows of the report (`internal/variation/report.go:380-391`). |
| SupervisorSafety.InventoryNeverDrifts | internal/db/store.go:140-160 | In careful runs, after every action distinct_ips counts the inventory rows, their hits add up to every successful probe ever recorded, and the new addresses of all ticks add up to the inventory. |
| SupervisorSamples.NoNumberStoredTwice | internal/sampler/worker.go:214-247 | In careful runs the samples stored for a session carry strictly increasing numbers of committed ticks, whichever batches failed, landed although they were reported failed, or were lost in a crash. |
| PoolGrowth.Accumulate | internal/ch/reader.go:290-318 | Each growth point is the running total of new addresses. |
| PoolGrowth.GrowthEndsAtInventory | internal/ch/reader.go:303-313 | With no event missing, the curve over all stored samples ends at the session's distinct_ips. |
| SupervisorObject.Supervisor.TryOperation | internal/sampler/supervisor.go:440-459 | The critical section on the object's fields is the state machine's acquire action, and it waits exactly when that action is not enabled. |
| SupervisorObject.Supervisor.EndOperation | internal/sampler/supervisor.go:461-467 | Giving the lock back on the fields is the machine's release action. |
| SupervisorObject.Supervisor.Publish | internal/sampler/supervisor.go:163-183 | The checks and the insertion on the fields are the machine's publish action, and the result tells where its call goes on. |
| SupervisorObject.Supervisor.Remove | internal/sampler/supervisor.go:187-193 | The end of a goroutine on the fields is the machine's remove action. |
| SupervisorObject.Supervisor.PickAndCancel | internal/sampler/supervisor.go:237-244 | Picking and canceling the owned worker on the fields is the machine's stop action. |
| SupervisorObject.Supervisor.ScheduleRecovery | internal/sampler/supervisor.go:276-296 | Scheduling a recovery on the fields is the machine's schedule action. |
| SupervisorObject.Supervisor.BeginClose | internal/sampler/supervisor.go:429-436 | The start of Wait on the fields is the machine's close action. |
| WorkerObject.CollectHits | internal/sampler/worker.go:195-212 | The loop over the probes yields each address once with its hit count, and the union of the seen sets. |
| WorkerObject.PreparedWorker.Tick | internal/sampler/worker.go:189-248 | Snapshot, event and hits are what the protocol uses, and memory moves exactly when the save succeeded. |
| WorkerObject.SaveHits | internal/db/store.go:151-155 | One upsert per address has the effect the tick transaction is specified to have. |
| WorkerObject.AggregateFeedsTick | internal/sampler/worker.go:189-212 | Every aggregate meets what a tick needs of it. |
| SampleWriter.ReceiveKeepsInv | internal/ch/writer.go:206-251 | Every receive keeps: accepted = handled batches, then batch, then queue; the batch below its limit; the sticky error equal to a failure since the last barrier; all answers honest. |
| SampleWriter.BarrierMeaning | internal/ch/writer.go:242-245 | A barrier answers nil exactly when every batch handled since the previous barrier was sent. |
| SampleWriter.BetweenBarriers | internal/ch/writer.go:127-182 | The events accepted between two barriers are exactly those of the batches between the two answers, all of them sent if the second answer is nil; that ClickHouse then has them is Delivery.NilMeansStored. |
| Delivery.ReceiveStores | internal/ch/writer.go:225-273 | One receive of the run loop stores exactly the batch it logs, event by event, if the batch landed, and nothing otherwise. |
| Delivery.TickerStores | internal/ch/writer.go:247-273 | So does one run of the writer's ticker. |
| Delivery.SentIsStored | internal/ch/writer.go:253-273 | In every run each event of a batch logged as sent is in ClickHouse, unless its session was purged since. |
| Delivery.NilMeansStored | internal/ch/writer.go:159-182 | A barrier answered nil: everything accepted since the barrier before it, or since the start of the process, is in ClickHouse unless its session was purged since. |
| WriterOutcomes.BatchWhenFull | internal/ch/writer.go:236-241 | An event joins the batch, which is handed over exactly when that makes it full. |
| WriterOutcomes.BarrierAnswers | internal/ch/writer.go:242-246 | A barrier hands over what there is, is answered with the failures since the last one, and forgives them. |
| WriterLifecycle.StepKeepsInv | internal/ch/writer.go:129-251 | Every step of any number of concurrent enqueues, flushes, closes, the closer and the run loop keeps the close protocol's invariant. |
| WriterLifecycle.NeverPanics | internal/ch/writer.go:186-204 | Nothing is ever sent on, or closes, the closed channel. |
| WriterLifecycle.Conservation | internal/ch/writer.go:206-251 | In every run the accepted commands in order are the handled ones, the batch and the queue. |
| WriterLifecycle.DoneMeansDrained | internal/ch/writer.go:206-235 | When done closes, batch and queue are empty, an Enqueue that returned true owns exactly one handled command, its own event, one that returned false owns none, and closeErr tells whether a batch failed since the last barrier or closing the connection failed. |
| WriterLifecycle.CloseNilMeansDelivered | internal/ch/writer.go:186-235 | When a Close returned nil nothing is left, every batch since the last barrier was sent, and the connection was closed. |
| WriterLifecycle.FlushNilMeansDelivered | internal/ch/writer.go:159-182 | A Flush that returned nil had its own barrier answered, and every batch since the barrier before it was sent. |
| WriterOutcomes.FailureHasCause | internal/ch/writer.go:129-197 | In every run a failed Enqueue, Flush or Close has itself met a reason: a closing writer, an invalid event or a full channel, a deadline, a barrier answered with an error, or a failed close. |
| WriterLifecycle.DrainProgress | internal/ch/writer.go:186-235 | Once the channel is closed the run loop can always move and its work only shrinks. |
| WriterLifecycle.ReadersMove | internal/ch/writer.go:159-204 | Whoever holds the read lock can move, or the run loop can make room for it. |
| WriterObject.Writer.Enqueue | internal/ch/writer.go:129-149 | Accepts exactly a valid event while accepting with room, appending it behind everything accepted before. |
| WriterObject.Writer.HandleCommand | internal/ch/writer.go:225-246 | One iteration of the run loop, barrier answer included, has the effect the protocol is built from. |
| WriterObject.Writer.DrainAndFinish | internal/ch/writer.go:225-235 | After the close the loop handles everything accepted, in order, and reports the pending error joined with that of closing the connection. |
| SingleFlight.StepKeepsInv | internal/enrich/service.go:65-162 | Every step of any number of lookups keeps: reference counts equal to the referrers, key in the map exactly while referenced, token in the channel or with one holder, slots conserved, cached rows in step with the lookups that decided on them. |
| SingleFlight.SingleFlightHolds | internal/enrich/service.go:65-162 | In every run at most one lookup per address is in its critical section, keys are in the map exactly while referenced, returning a token never blocks, and slots bound the fan-outs. |
| SingleFlight.SavesApart | internal/enrich/service.go:80-122 | Successive saves of an address are at least one time to live apart each and keep FirstSeen. |
| SingleFlight.RowRenewed | internal/enrich/service.go:101-117 | A stored row only changes to one at least a time to live younger with the same FirstSeen, rows older than the process included. |
| SingleFlight.FanOutAfterTtl | internal/enrich/service.go:80-122 | A lookup that goes on from its recheck to the providers does so at least a time to live after the refresh of every row saved for its address, the last of which is the one it replaces. That it must go on is Lookups.CheckDecides. |
| Lookups.CheckDecides | internal/enrich/service.go:67-86 | Each of the two checks of the cache ends the lookup exactly when the stored row is younger than the time to live. |
| Lookups.StoresRenewed | internal/enrich/service.go:111-121 | The save stores exactly the renewed row, for its own address only. |
| Lookups.ReturnsFreshRow | internal/enrich/service.go:65-122 | In every run a lookup none of whose steps failed returns only after it found a fresh row, or stored what the providers answered it, refreshed since it began. |
| EnrichmentObject.Service.TakeReference | internal/enrich/service.go:124-133 | Taking a reference on the object's key map is the state machine's action. |
| EnrichmentObject.Service.ReleaseKeyReference | internal/enrich/service.go:155-162 | Dropping a reference on the object's key map is the state machine's action. |
| RenameCascade.StepKeepsInv | internal/db/runs.go:234-280 | Every interleaving of run renames, session renames, creations and deletions keeps the committed names and each open cascade's duties. |
| RenameCascade.NamesFollowRun | internal/db/runs.go:234-280 | In every committed state a child nobody renamed and whose params decode carries the name generated from its run's current name, and a renamed one the last name a person gave it. |
| RenameCascade.CustomizedStays | internal/db/sessions.sql.go:157-161 | The customized flag never reverts and only a session rename changes a customized name. |
| RenameCascade.CommitRenames | internal/db/runs.go:234-280 | A committed rename gives the run the name that was asked for, and every child that follows the run the name generated from it, which differs from its old one exactly when the run name does. |
| RenameCascade.RunNamed | internal/db/runs.go:245-252 | Only the commit of one of its renames changes the name of a run; a new run has the name and the children it was asked for. |
| RenameCascade.SessionRenamed | internal/db/sessions.sql.go:157-161 | Renaming a session sets the name a person asked for and the flag, and changes no other session. |
| RenameCascade.ChildChanges | internal/db/runs.go:257-276 | A child disappears exactly with its own or its run's deletion, and its name changes only by a person or, while it follows the run, by a committed rename. |
| VariantNames.GenerateName | internal/variation/name.go:12-26 | However the map yields its keys, the name is the run name with the parameters in key order. |
| VariantNames.NameSpells | internal/variation/name.go:12-26 | The name is the run name followed by a text that depends on the parameters only: nothing without parameters, else every key with its value once, in ascending key order, in brackets. |
| VariantNames.NamesDiffer | internal/variation/name.go:25 | The run name is in front, and different run names give different names. |
| VariantNames.AscendingUnique | internal/variation/name.go:16-20 | A set of keys has one ascending order, so the suffix is deterministic. |
| Aggregation.Aggregate | internal/sampler/aggregate.go:36-113 | The sample records one slot per probe, counts hits, distinct and new addresses, picks the earliest probe among the most frequent addresses with its country, times the usable probes or, if there is none, gives the error text; its counters tally. |
| ProbeErrors.JoinProbeErrors | internal/sampler/aggregate.go:122-141 | Each message once, joined, and cut to the longest valid prefix of at most 2048 bytes. |
| ProbeErrors.FirstsInOrder | internal/sampler/aggregate.go:122-131 | The messages kept are all different and in the order in which they first came. |
| Aggregation.OneWinner | internal/sampler/aggregate.go:81-94 | The primary address is unique: there is one earliest probe with maximal hits. |
| Aggregation.CountsNested | internal/sampler/aggregate.go:73-80 | New ≤ distinct ≤ successful ≤ attempted ≤ 255 with no clamp changing a count, and the times are ordered. |
| Aggregation.Times | internal/sampler/aggregate.go:101-112 | Minimum, maximum and the floor of the middle of the sorted times, every step within 64 bits. |
| Template.SegmentsLossless | internal/variation/template.go:12-48 | The scanned literals and placeholders concatenate back to the template and have the shape the pattern demands. |
| Template.ScanUnique | internal/variation/template.go:12-48 | There is no other such decomposition. |
| Template.ParseTemplate | internal/variation/template.go:28-48 | Succeeds exactly for a non-blank template without blank placeholders; the names are sorted, unrepeated and exactly those of the placeholders. |
| Template.Render | internal/variation/template.go:61-83 | Succeeds exactly when every placeholder has a value and the full substitution is at most 8192 bytes, and returns it: aborting early loses nothing. |
| Template.SubstitutedPieces | internal/variation/template.go:61-83 | The rendered text consists of the pieces in order: literals as they are, placeholders replaced by their values, once. |
| Planning.RandomSpace | internal/variation/expand.go:250-259 | Exact for counts up to MaxInt64/36 although the product wraps. |
| Planning.PlannedCount | internal/variation/expand.go:94-146 | Succeeds exactly when every axis is in order and the product of their sizes is within the limit, and returns it; every value fits 64 bits. |
| Expansion.RangeValues | internal/variation/expand.go:160-172 | The numbers from From to To as text; the counter never steps past the largest integer. |
| Expansion.ItoaRoundTrip | internal/variation/expand.go:167 | Different numbers of a range have different texts. |
| Expansion.Cartesian | internal/variation/expand.go:179-196 | The nested loops compute the product of the axes. |
| Expansion.CellsComplete | internal/variation/expand.go:179-196 | The cells are exactly the assignments of one of its values to every fixed axis. |
| Expansion.CellsDistinct | internal/variation/expand.go:179-196 | Cells differ when no axis repeats a value. |
| Expansion.DrawDistinct | internal/variation/expand.go:234-246 | A drawn value is new and every draw before it repeated one; it gives up exactly after maxAttempts repeating draws in a row, and fails exactly when the source does. |
| Expansion.RandomCartesian | internal/variation/expand.go:198-230 | On success there are as many combinations as the counts multiply to, all over the random names, all different and made of drawn values only; it fails only with the source, or after 32 times an axis's count of draws that repeated fewer values than the count. |
| Expand.ProductSplits | internal/variation/expand.go:22-89 | The planned count is the number of cells times the random combinations per cell. |
| Expand.Expand | internal/variation/expand.go:22-89 | Mismatched axes and refused plans are errors, exactly; a draw error means the source failed or an axis ran dry, a render error that some assignment's URL is over 8192 bytes; on success exactly the planned number of variants within the limit, cell by cell with the planned number each, each with a value for every placeholder, its own cell's or a drawn one, and rendered, every cell covered, all different unless a list repeats a value. |
| PoolReport.RowsGroupObservations | internal/variation/report.go:80-108 | There is a row for exactly the observed addresses with sum of hits, earliest known and latest sighting, the sessions that saw it, and all columns of the reputation that came with one of its observations. |
| PoolReport.ShowsOneReputation | internal/variation/report.go:132-151 | The columns of a row are those of one reputation of its address, column by column, or empty. |
| PoolReport.CategoriesByName | internal/variation/report.go:408-419 | The three canonical names are told apart and everything else is unknown. |
| PoolReport.FlaggedByEvidence | internal/variation/report.go:157-168 | An address is flagged exactly if one of the five sources speaks against it. |
| PoolStatistics.AddRisk | internal/variation/report.go:437-446 | A score is counted in the one bucket it belongs to, and in none outside 0 to 100. |
| PoolStatistics.SortedIps | internal/variation/report.go:380-391 | The rows come in strictly increasing address order, each exactly once, whatever order the map yields. |
| PoolStatistics.Summarise | internal/variation/report.go:110-126 | Categories, histogram, flags, estimate and rows are those of the sorted rows; the categories add up to their number. |
| Chao1.EstimatePool | internal/variation/chao1.go:13-29 | The estimate is the bias-free Chao1 formula rounded down, or the observed count as a lower bound. |
| Chao1.EstimateBounds | internal/variation/chao1.go:13-29 | The estimate is never below the observed count and rounds the formula down. |
| HonorReport.Dominant | internal/variation/report.go:318-354 | Returns the one observed value whose hits exceed those of every other observed value, or empty if there is none, whatever order the map yields. |
| HonorReport.WeightsAreSums | internal/variation/report.go:318-333 | The weights are over exactly the non-empty values observed, each the sum of the hits of the observations that carry it, counting each at least once. |
| HonorReport.VariantHonor | internal/variation/report.go:266-302 | A proven mismatch wins, a match needs every requested field to agree, everything else is unknown. |
| HonorMeaning.HonorMeans | internal/variation/report.go:266-302 | A mismatch exactly if something that was asked for is proven different; a match exactly if something was asked for and all of it is proven the same. The manual target comes before the country parameter, and that before its short form. |
| HonorReport.CellsSumUp | internal/variation/report.go:170-247 | Cell honor counts add up to the global ones, cell sizes to the variants, and each composition to its cell's addresses. |
| HonorReport.CellsSeeTheirSessions | internal/variation/report.go:170-247 | There is a cell for exactly the keys of the variants, and its addresses are exactly those its variants' sessions observed. |
| HonorMeaning.CellsCount | internal/variation/report.go:196-225 | Per cell and overall, honored counts the matches, sampled the proven outcomes, and the size the variants. |
| HonorMeaning.CellsCompose | internal/variation/report.go:203-208 | If reputation belongs to the address, a cell's composition counts its addresses category by category. |
| HonorMeaning.CellsShowTargets | internal/variation/report.go:197-201 | A cell shows the first manual target one of its variants names. |
| HonorReport.BuildHonorAndCells | internal/variation/report.go:170-247 | The loop over the variants computes those cells. |
| BuildReport.BuildPoolReport | internal/variation/report.go:80-130 | The report consists of the statistics of the grouped, sorted rows and of the cells. |
| BuildReport.ReportAnyOrder | internal/variation/report.go:80-130 | If reputation belongs to the address, reports of the same observations in any order are equal. |
| BuildReport.ReportRefinesGroupBy | internal/db/runs.go:160-180 | The report's rows are the group-by of the observations in strict address order, composition and estimate agree with their number, and the cells sum up. |
| Stickiness.DeriveStickiness | internal/ch/reader.go:382-429 | The loop computes the maximal runs, their rotations, and mean and median of their durations. |
| Stickiness.RunsLossless | internal/ch/reader.go:387-413 | Expanding the holds gives back the observed addresses; holds are not empty and neighbours differ. |
| Stickiness.EncodingUnique | internal/ch/reader.go:387-413 | No other encoding of that kind exists. |
| Stickiness.RotationsLinkHolds | internal/ch/reader.go:397-409 | One rotation per adjacent pair of holds, from the one to the other, at the other's start. |
| Stickiness.HoldsSpan | internal/ch/reader.go:387-413 | Every hold starts with the first and ends with the last of its own samples and lasts for the whole seconds between them; together the holds take up all samples. |
| Stickiness.GapsTelescope | internal/ch/reader.go:400-409 | On whole-second, non-zero times the gaps add up to last rotation minus first observation. |
| Stickiness.MedianBetween | internal/ch/reader.go:421-427 | The median lies between the shortest and the longest hold. |
| Stickiness.MedianMidway | internal/ch/reader.go:421-427 | The median is midway between two of the durations, with at least half of all not above the one and at least half not below the other. |
| Classify.PaddedSearch | internal/enrich/classify.go:64-72 | Padded substring search finds a phrase exactly when its words occur in a row. |
| Classify.DatacenterByWords | internal/enrich/classify.go:64-79 | An ASN string is a datacenter's exactly when some token's words occur in a row among its normalized words. |
| Classify.WordsSplit | internal/enrich/classify.go:74-79 | Any character that belongs to no word separates: the words are those in front of it and those behind. |
| Classify.WordsOfJoin | internal/enrich/classify.go:74-79 | Splitting what was joined gives back the same words: normalizing is stable. |

## Left out

- Liveness: that a re-enabled row eventually gets a worker is not promised by the code and not stated; `Reenable` changes the row outside the lock.
- Store calls whose outcome is unknown to the caller (a commit that succeeded although an error was returned).
- Real time: cadence, deadlines, retry delays and the writer's timer are steps that may happen at any moment.
- SupervisorSafety.LifetimeNumbering: stated while a session has fewer than 2^31 committed ticks, since the columns and the event's number are 32 bits wide; SupervisorSamples.NoNumberStoredTwice and PoolGrowth.GrowthEndsAtInventory have the same limit.
- PreparedWorker objects are values with an identity label in the state machine; `WorkerObject.dfy` has them as objects.
- The columns last_primary_ip, last_category, last_rtt_ms, last_error, last_sample_at, probes_total and stopped_at of a session, and first and last sightings in session_ips.
- Overflow of 64-bit sums of hits and votes, and of f1*f1 in the Chao1 estimate.
- Rates are kept as numerator and denominator, means and medians as exact rationals; rounding of floating point is not modelled.
- ProbeErrors.JoinProbeErrors: strings are byte strings; the two UTF-8 primitives, which repair a string and tell whether it is valid, are parameters.
- A batch that ClickHouse keeps only after its insert was reported failed and later commands were handled: a failed batch lands at once or never.
- Template.Render: strings are byte strings; the trimming of white space is a parameter.
- Planning.PlannedCount: stated for limits from 1 to MaxInt64/36; the unreachable test for a non-positive total is not modelled.
- Expand.Expand: the JSON text of a cell key is represented by the cell itself, and errors of its encoding do not occur; re-checks after planning that cannot fail are not repeated.
- Expansion.DrawDistinct: the random source is a parameter giving the outcome of each draw; the length a draw is asked for is not recorded.
- JSON decoding of variant params: undecodable params are an explicit case in the rename model and empty in the report.
- Case folding and the tolerant comparison of provider names in the report; `Classify` beyond the ASN search.
- The merging of provider results in a lookup, what a reputation says, and the providers' HTTP and DNS calls.
- RenameCascade.NamesFollowRun: the migration that set the flag on rows older than it is not modelled.
- Deletion of a whole run in the control plane around `DeleteSessions`, queries and paging of ClickHouse, CSV streaming, HTTP routing, the web client, configuration, encryption and telemetry.
- Drop counters and the throttling of the drop log.
