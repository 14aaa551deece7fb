# Spacescraper: verified model of the delivery, crawl, storage and sweep logic

This project models the parts of Spacescraper whose correctness spans several functions or several
processes, and proves what they promise over every input or every run.

- **Delivery** (`DeliveryProtocol.dfy`, `DeliveryGuarantees.dfy`, `DeliveryLosses.dfy`, `StreamQueue.dfy`,
  `StreamAccount.dfy`, `Outbox.dfy`). The stream queue is a step system: publish, deliver, SET NX, callback
  verdict, DEL, re-push or dead-letter, XACK, claim, death of a handler, in any interleaving.
  `ValkeyStreamQueue` is an object whose methods are shown to be runs of that system, faults included. The outbox relay is one more producer: its own step system drives the
  same queue state, so theorems carry from the outbox row to the callback.
- **Crawl** (`Crawl.dfy`, `CrawlRepeats.dfy`, `CrawlTree.dfy`, `FanoutBudget.dfy`). Root ids recovered by
  stripping `rec_`, the shared budget, any number of processors with a seen set each, restarts, and deliveries
  that raise at any push and come again.
- **Job repository** (`JobProtocol.dfy`, `JobHistory.dfy`, `JobRepository.dfy`). One SQLite connection with one
  implicit transaction, a write lock, `transaction()` blocks, plain writes, lock-free readers and clients that
  read, decide and compare-and-set; tasks switch at every await. `JobHistory.dfy` is about what a version
  does not tell, heartbeats and deletion marks. The object form follows beside them.
- **Area sweep** (`PlaceSweep.dfy`). Circle subdivision against a capped search service.
- **Session pool, caches, citation filter, throttle** (`Sessions.dfy`, `Cache.dfy`, `Synthesis.dfy`,
  `Throttle.dfy`), with `Text.dfy` for white space.

Store commands are atomic; whether one raises is a parameter wherever the code distinguishes the cases.
Network answers, clocks and identifiers drawn at random are parameters. `dafny verify dfyconfig.toml`
checks the whole project.

## Where the code and its documentation differ

The model follows the code; each difference is a lemma.

- A handler that dies after winning the dedup key ends its message: from then on no callback for the id is
  started, and every later claim acknowledges the entry as a duplicate (`DeathHoldingIsFinal`,
  `CrashHoldingKeyLoses`). `RecoverableExactly` says which ids can still succeed.
- A handler that dies after DEL leaves its entry to be claimed, unless a claim that landed while the callback
  ran has acknowledged it as a duplicate (`DeathAfterReleaseExactly`). One such claim can cost the only copy of
  a message (`ClaimWhileHandledCanLose`, `CrashAfterReleaseLoses`); when no claim lands on an entry that is being
  handled, nothing is lost this way (`ExclusiveConservation`). The claim's idle time counts from the delivery of
  an entry, so it has to exceed the wait behind the rest of its batch and its own handling together.
- "Cancel a QUEUED or RUNNING job" also cancels a soft-deleted one (`CancelRevivesDeleted`). The row keeps its
  `deleted_at` for good (`MarkIsForGood`), so the purge removes the cancelled job (`PurgesCancelled`).
- The reaper fails jobs "whose worker went silent", but a heartbeat leaves the version alone: a job that was
  heard of after the reaper read it is failed all the same (`ReapsLiveExactly`, `ReaperFailsLiveJob`).
- The fan-out cap bounds a crawl exactly when the root id does not strip to nothing; for the ids `""`,
  `rec_`, `rec_rec_`, ... every generation has a budget of its own (`CrawlTerminatesExactly`).
- A settled URL can be enqueued again. A processor's seen set lives in its memory, and no delivery to a
  processor repeats anything exactly when it has marked everything that was ever written since it last started
  (`NeverReenqueuedExactly`). A second processor and a restart break that (`FreshProcessorRepeats`,
  `RestartRepeats`), and so does a push that takes effect and then raises (`CutRepeats`). Apart from all that, a
  page that names one URL twice, as its next page and as a link, say, has it enqueued twice by one delivery
  (`PushedOnceExactly`). The bound on a crawl survives, because the budget is shared.
- A purge whose later statement raises gives the lock back with its earlier deletes pending, outside any
  `transaction()`; this is the only way pending writes leave the lock holder (`StrayExactly`), it happens, and
  the next rollback undoes them (`StrayPurgeReached`).
- The synthesis prompt says that a sentence citing an unknown id is discarded; it is kept when it also
  cites a known one (`UnknownIdsDiscardedExactly`, `FabricatedIdSurvives`).
- A throttle step never lowers the delay exactly when the delay was within `max_delay_ms`
  (`RunNeverLoweredExactly`).
- A delivered or failed outbox row is final exactly when there is at most one relay, although the relay may
  run both in the API process and as a worker (`TerminalKeptExactly`). The comment "Atomically increment
  retry_count" holds as far as that too: between the SELECT and the UPDATE another relay can count, and its count
  is lost (`CountsKeptExactly`, `TwoRelaysLoseCount`). The rest of the outbox lifecycle, and everything from a
  delivered row on, holds for any number of relays.
- The two-level cache answers like one map exactly when JSON gives every value back
  (`LikeAMapExactly`).

## Model

| member | source | states |
|---|---|---|
| DeliveryGuarantees.Conservation | src/infrastructure/queues/stream_queue.py:109-324 | In every reachable state of any interleaving a pushed id has succeeded, is dead-lettered, in flight, in an unacknowledged entry, has its key stuck (taken, held by nobody, not succeeded), or lost its last handler after DEL on an entry a claim had acknowledged |
| DeliveryGuarantees.NoDeathsNoOrphans | src/infrastructure/queues/stream_queue.py:269-324 | Without handler deaths no id is recorded as abandoned with its key or as overtaken by a claim |
| DeliveryGuarantees.AbandonedExactly | src/infrastructure/queues/stream_queue.py:291-324 | In every reachable state a key is stuck iff one of the deaths so far was that of a handler with this key in hand |
| DeliveryProtocol.DeathAfterReleaseExactly | src/infrastructure/queues/stream_queue.py:301-324 | When a handler that owes its message dies, the message is still provided for iff the handler's own entry is not acknowledged or about to be, or something else has the message |
| DeliveryGuarantees.ExclusiveConservation | src/infrastructure/queues/stream_queue.py:326-357 | In every run in which no claim lands on an entry being handled, a pushed id is provided for or its key is stuck: deaths after DEL lose nothing |
| DeliveryLosses.ClaimWhileHandledCanLose | src/infrastructure/queues/stream_queue.py:291-324 | In any reachable state in which a key holder has the only copy of its message, one claim of its entry, and no further one, can end with nothing left of it |
| DeliveryGuarantees.SettledWhenAtRest | src/infrastructure/queues/stream_queue.py:269-324 | With no handler running and every entry acknowledged, each pushed id has succeeded, is dead-lettered, has its key stuck, or was overtaken by a claim; without handler deaths, one of the first two |
| DeliveryGuarantees.GarbageAccounted | src/infrastructure/queues/stream_queue.py:174-190 | An unparseable entry is acknowledged only after its raw dead-letter write was made or its failure swallowed |
| DeliveryGuarantees.SingleHolderSingleSuccess | src/infrastructure/queues/stream_queue.py:291-324 | Two callbacks of one id never overlap, none starts after a success, and between two starts there is a failure, whatever duplicates are pushed or claimed |
| DeliveryGuarantees.LifeMeaning | src/infrastructure/queues/stream_queue.py:291-324 | The life automaton over the callback log means what the theorem above says: at most one success, nothing after it, and a failure between any two starts |
| DeliveryGuarantees.UnheldKeyIsFinal | src/infrastructure/queues/stream_queue.py:294-299 | A dedup key nobody holds is never given back and no callback for its id is started again |
| DeliveryLosses.DeathHoldingIsFinal | src/infrastructure/queues/stream_queue.py:294-299 | In every run, once a handler dies holding a key no callback for that id starts again and none succeeds, whatever follows |
| DeliveryLosses.RecoverableExactly | src/infrastructure/queues/stream_queue.py:291-324 | In every reachable state an id can still succeed, if need be by being pushed again, iff its key is not stuck |
| DeliveryLosses.CrashHoldingKeyLoses | src/infrastructure/queues/stream_queue.py:294-299 | A run in which a death with the key in hand ends with nothing left of the message, which then never succeeds in any continuation |
| DeliveryLosses.CrashAfterReleaseLoses | src/infrastructure/queues/stream_queue.py:301-324 | From the empty store: a run in which a claim during the callback and a death after DEL end with nothing left of the message, its key free |
| DeliveryGuarantees.RetryBound | src/infrastructure/queues/stream_queue.py:301-324 | Every stream entry has retry_count below max_retries at all times exactly when every publish had |
| DeliveryProtocol.InvRun | src/infrastructure/queues/stream_queue.py:109-357 | The whole-store invariant (one holder per key, every taken key explained, every message somewhere) holds after any steps |
| StreamQueue.ValkeyStreamQueue.Push | src/infrastructure/queues/stream_queue.py:109-150 | Up to 1.5 times the memory limit a push is an XADD; above it the message goes to the dead-letter queue instead, without an exception, and an XADD follows only when the metric for it cannot be counted; all of that under every fault |
| StreamQueue.ValkeyStreamQueue.PushDlq | src/infrastructure/queues/stream_queue.py:152-172 | One dead-letter entry for the id, or nothing when it raises |
| StreamQueue.ValkeyStreamQueue.ProcessEntry | src/infrastructure/queues/stream_queue.py:269-324 | Handling an entry, with a fault at any command, is a run of protocol steps; what became of the message and the key on each path |
| StreamQueue.ValkeyStreamQueue.HandleFailure | src/infrastructure/queues/stream_queue.py:301-324 | DEL, then the retry or dead-letter entry, then XACK, in that order and cut at any fault |
| StreamQueue.ValkeyStreamQueue.Consume | src/infrastructure/queues/stream_queue.py:207-267 | One undisturbed consumer terminates with every entry acknowledged, and what it leaves is its desk after some number of entries, duplicates and taken keys included |
| StreamAccount.AllSettled | src/infrastructure/queues/stream_queue.py:207-324 | Once the queue is empty every id has had exactly the callbacks, successes and dead letters its waiting copies were owed |
| StreamAccount.OwedExactly | src/infrastructure/queues/stream_queue.py:291-324 | However many copies wait, a message succeeds once iff its key is free and some copy would be accepted in time; otherwise every copy is dead-lettered after all its attempts |
| StreamQueue.EntryExchanges | src/infrastructure/queues/stream_queue.py:269-324 | Each processed entry strictly lowers the remaining work and conserves what is owed to every id |
| StreamAccount.LoneMessage | src/infrastructure/queues/stream_queue.py:301-324 | A message with one copy gets as many callbacks as attempts and exactly one final disposition: one success, or one dead letter |
| StreamAccount.AlwaysFailing | src/infrastructure/queues/stream_queue.py:301-324 | An always-failing message is called once per remaining attempt and is never accepted |
| Outbox.Lifecycle | src/infrastructure/repositories/outbox_repository.py:89-134 | With any number of relays and faults or crashes anywhere: DELIVERED means pushed under the event id, PENDING means retries remain, FAILED means they are used up |
| Outbox.RetriesExact | src/infrastructure/repositories/outbox_repository.py:113-134 | With one relay a row is FAILED iff its retry count equals its limit, and never exceeds it |
| Outbox.TerminalIsFinal | src/infrastructure/repositories/outbox_repository.py:89-134 | With one relay a DELIVERED or FAILED row is never touched again |
| Outbox.PushesBounded | src/infrastructure/outbox_relay.py:94-125 | With one relay at most three push attempts a delivery; a FAILED event had exactly three per retry unless a delivery was cut short |
| Outbox.NothingLostOnTheWay | src/infrastructure/outbox_relay.py:60-125 | With any number of relays a DELIVERED event is, at the queue, unacknowledged, in flight, dead-lettered, done, stuck or overtaken by a claim |
| Outbox.DuplicatePushesSucceedOnce | src/infrastructure/outbox_relay.py:98-125 | However often any number of relays push an event, its callback succeeds at most once |
| Outbox.QueueRun | src/infrastructure/outbox_relay.py:98-125 | Every run of relays and consumers is, at the queue, a run of the delivery protocol |
| Outbox.TwoRelaysReviveDelivered | src/infrastructure/repositories/outbox_repository.py:104-134 | Any two relays can take a DELIVERED row back to PENDING |
| Outbox.TerminalKeptExactly | src/infrastructure/repositories/outbox_repository.py:104-134 | Over a set of relays every DELIVERED or FAILED row is final in all runs iff the set has at most one relay |
| Outbox.CountsKeptExactly | src/infrastructure/repositories/outbox_repository.py:113-134 | Over a set of relays no retry count ever falls in any run iff the set has at most one relay |
| Outbox.TwoRelaysLoseCount | src/infrastructure/repositories/outbox_repository.py:113-134 | Any two relays can leave a row that has failed three deliveries with a count of one |
| Outbox.SqliteOutboxRepository.CreateEvent | src/infrastructure/repositories/outbox_repository.py:61-87 | A new pending row, or a primary-key error and no change |
| Outbox.SqliteOutboxRepository.GetPendingEvents | src/infrastructure/repositories/outbox_repository.py:89-102 | The first events in creation order that are PENDING and were not tried since the cutoff, each once, up to the limit |
| Outbox.SqliteOutboxRepository.MarkFailed | src/infrastructure/repositories/outbox_repository.py:113-134 | The count written is the one read plus one, whatever other relays updated between the SELECT and the UPDATE; the status follows it; an unknown event is ignored, and a raise leaves only the others' updates |
| Outbox.RetryWaitsItsDelay | src/infrastructure/repositories/outbox_repository.py:89-134 | A failed delivery with retries left is due again iff the cutoff has passed its time |
| Outbox.SqliteOutboxRepository.MarkDelivered | src/infrastructure/repositories/outbox_repository.py:104-111 | The row of a known event becomes DELIVERED with its time, its counts kept; nothing changes when the statement raises |
| Outbox.OutboxRelay.DeliverEvent | src/infrastructure/outbox_relay.py:94-125 | The row ends DELIVERED iff one of three attempts passed push and mark, else the failure is counted, else the exception leaves the method; all of it a run of relay steps |
| Outbox.OutboxRelay.RunOnce | src/infrastructure/outbox_relay.py:60-72 | A poll settles the due events in order until one raises; when none does each is DELIVERED or has one retry more counted, and no other row changes |
| FanoutBudget.ExactBudget | src/infrastructure/queues/stream_queue.py:383-456 | Over any requests for many roots, a root is granted exactly min(cap, what it asked for); unchecked calls add at most the degraded limit each |
| FanoutBudget.Budget.GetAllowedFanout | src/infrastructure/queues/stream_queue.py:383-456 | The in-process tracker, the script and the degraded path grant and charge by one rule |
| FanoutBudget.Budget.RunScript | src/infrastructure/queues/stream_queue.py:400-444 | The script grants the request or the room left under the cap, whichever is less, and counts a positive grant under its own key only |
| Crawl.DiscoverFollowUrls | src/application/extraction_pipeline.py:685-715 | In terms of the page: nothing without html or follow_links; else the next page first at the same depth, then every link in order one level deeper exactly while depth is below max_depth |
| Crawl.RootIdOf | worker_processor.py:124-128 | The prefix-stripping loop finds the tree key, falling back to the id itself when nothing is left |
| Crawl.RootKeyExactly | worker_processor.py:124-128 | An id is its key behind some number of rec_ prefixes and the key has none; an id of prefixes alone is its own key |
| Crawl.ChildKeepsKey | worker_processor.py:124-128 | A child falls under its parent's key iff stripping the parent's id leaves something |
| Crawl.Processor.ProcessFollows | worker_processor.py:122-195 | One delivery, raising at any push: the seen set, budget, stream and dead-letter queue it leaves |
| Crawl.Processor.EnqueueAll | worker_processor.py:161-195 | The two enqueue loops, each URL marked only after its own write has returned, whatever a raising write has left |
| Crawl.SeenExactly | worker_processor.py:130-195 | One delivery keeps the seen set equal to what was pushed or dead-lettered iff it leaves no URL written and unmarked, by a write that raised after taking effect |
| Crawl.SeenThroughout | worker_processor.py:130-195 | Over any deliveries to any processors and restarts: what is settled is what anyone wrote, and a processor's seen set is what it has marked since it last started |
| Crawl.SeenIsDisposedExactly | worker_processor.py:60-64 | After any run a processor's seen set equals the settled URLs iff it has marked every write of the run since it last started |
| Crawl.DeliveryExactly | worker_processor.py:161-195 | What one delivery marks and writes is given by the position at which its loops stop |
| Crawl.NoUrlLost | worker_processor.py:130-195 | A delivery that completes has enqueued or dead-lettered every URL its page leads to |
| Crawl.NoUrlLostInRun | worker_processor.py:130-195 | After any run, at whichever processor, a delivery that completes settles every URL of its page for good |
| Crawl.PageSettled | src/application/extraction_pipeline.py:685-715 | After any run, the visit of a page that follows links settles, once it completes, its next page, and every link while depth is below max_depth |
| CrawlRepeats.QuietDelivery | worker_processor.py:136-195 | When nothing raises, a delivery enqueues the unseen URLs in page order as far as the tree has room under 200 and dead-letters exactly the others |
| CrawlRepeats.RepeatsExactly | worker_processor.py:130-172 | At a processor no delivery whatsoever enqueues a URL settled before the delivery iff its seen set holds everything settled |
| CrawlRepeats.NeverReenqueuedExactly | worker_processor.py:60-64 | After any run of any processors, no delivery to a processor enqueues a URL settled before that delivery iff it has marked every write since it last started |
| CrawlRepeats.FreshProcessorRepeats | worker_processor.py:60-64 | A processor that took no part in a run that wrote anything enqueues some settled URL again |
| CrawlRepeats.RestartRepeats | worker_processor.py:60-64 | So does any processor after a restart |
| CrawlRepeats.CutRepeats | worker_processor.py:161-172 | One processor, no restart: any push that takes effect, in the stream or the dead-letter queue, and raises leaves its URL unmarked, and the redelivery enqueues it again |
| CrawlRepeats.PushedOnceExactly | worker_processor.py:130-172 | From any state, however its writes end, one delivery pushes no URL twice iff the not yet seen URLs its allowance covers differ |
| Crawl.PushesAreNew | worker_processor.py:130-172 | Every pushed job is a child of the payload, with the prefixed id, the follow's depth and the payload's follow_links, for a URL of its page not marked before |
| CrawlTree.FanoutBounded | worker_processor.py:136-143 | Over any deliveries to any processors, restarts included, a tree never has more child jobs than the cap plus the degraded limit per unchecked call |
| CrawlTree.TreeStaysTogether | worker_processor.py:124-172 | In any crawl of a root by any processors, every descendant strips back to the root's id, carries its key and stays within max_depth |
| CrawlTree.OneBudget | worker_processor.py:136-143 | Every visit of a tree draws on one budget |
| CrawlTree.CrawlTerminates | worker_processor.py:122-172 | Any link graph, next-page cycles included, any number of processors and restarts: at most MAX_RECURSIVE_FANOUT child jobs, plus the degraded limit for each visit at which the budget could not be checked |
| CrawlTree.CrawlTerminatesExactly | worker_processor.py:122-172 | The number of child jobs is bounded iff the root id does not strip to nothing |
| CrawlTree.RunawayCrawl | worker_processor.py:124-143 | For other root ids a next-page cycle enqueues any number of jobs |
| JobProtocol.TransactionAtomic | src/infrastructure/repositories/job_repository.py:126-152 | Under every interleaving a transaction() block is committed whole and in order, or not at all |
| JobProtocol.RowAndEventTogether | main.py:365-374 | The committed database never holds the outbox event of a submission without its job row (unless purged later), nor the row without the event |
| JobProtocol.SubmissionCommits | main.py:365-374 | A run in which a submission commits its job row and its event together |
| JobProtocol.StrayExactly | src/infrastructure/repositories/job_repository.py:126-152 | A step leaves pending writes outside the lock holder iff a purge raises midway; a rollback undoes exactly the raising block's own statements |
| JobProtocol.StrayPurgeReached | src/infrastructure/repositories/job_repository.py:381-398 | A run in which a purge raises midway, its first delete stays pending without the lock, and the next block's rollback undoes it |
| JobProtocol.PendingBelongsToHolder | src/infrastructure/repositories/job_repository.py:126-256 | Over any run without such a purge, pending writes belong to the lock holder alone |
| JobProtocol.VersionDeterminesState | src/infrastructure/repositories/job_repository.py:232-246 | Two reads of a job at any two moments that see one version see one state |
| JobProtocol.MovesAreAccepted | src/application/reaper.py:28-40 | Judged by the state the row really had when written: the reaper only moves RUNNING to FAILED, soft delete only leaves terminal states, cancel never overwrites the four states it refuses |
| JobProtocol.ClientsAct | src/infrastructure/repositories/job_repository.py:335-356 | From any reachable store at rest the reaper can fail a RUNNING job, cancel a QUEUED, RUNNING or DELETED one, and soft deletion delete one in any of the four terminal states |
| JobProtocol.EnteredFrom | src/domain/models.py:33-43 | For every state, the states it can be entered from are exactly those of the lifecycle table read by target |
| JobProtocol.MissMeansOvertaken | src/infrastructure/repositories/job_repository.py:232-246 | A compare-and-set about to execute hits iff the job is there and has not been moved since the read; when it misses an existing job, another task has moved it in between |
| JobProtocol.TwoMissesMeanTwoMoves | worker_scraper.py:108-133 | When both attempts of the worker miss a job that is still there, other tasks than its own have moved it between each read and the update that followed |
| JobProtocol.CancelRevivesDeleted | main.py:431-451 | A run in which cancel turns a DELETED job into CANCELLED |
| JobHistory.HeartbeatIsLatest | src/infrastructure/repositories/job_repository.py:210-219 | Between any two reads a job's heartbeat changes only to the last one that landed; no state change and no rollback of others touches it |
| JobHistory.ReapsLiveExactly | src/application/reaper.py:28-40 | When the reaper's update hits, the job it fails is still RUNNING, and still silent iff the last heartbeat that landed since the reaper read it, if any, is older than the cutoff |
| JobHistory.ReaperFailsLiveJob | src/application/reaper.py:28-40 | A run in which a heartbeat lands between the read and the update and the job is failed |
| JobHistory.MarkedMeansRevived | src/infrastructure/repositories/job_repository.py:335-356 | In every run a row outside DELETED that carries deleted_at was moved out of DELETED by a recorded update, unless it was inserted with it |
| JobHistory.MarkIsForGood | src/infrastructure/repositories/job_repository.py:335-396 | Once a row carries deleted_at it does so at every later read |
| JobHistory.PurgesCancelled | src/infrastructure/repositories/job_repository.py:358-396 | A run in which a soft-deleted job is cancelled and then hard-deleted as CANCELLED |
| JobProtocol.InvRun | src/infrastructure/repositories/job_repository.py:126-398 | The connection invariant (blocks, versions, ownership) holds after any steps, and no version changes the state it was seen in |
| JobProtocol.RowsFromInserts | src/infrastructure/repositories/job_repository.py:154-188 | A row is in a replayed log only if inserted there, and stays unless purged |
| JobRepository.SqliteJobRepository.SubmitJob | main.py:365-374 | With a fault at any statement or at the commit: both rows or neither |
| JobRepository.SqliteJobRepository.UpdateJobState | src/infrastructure/repositories/job_repository.py:232-246 | Hits iff the version matches; then state and version of that row alone change |
| JobRepository.SqliteJobRepository.SoftDeleteJob | src/infrastructure/repositories/job_repository.py:335-356 | Deletes iff the job was read in one of the four terminal states and nobody changed the version before the update, whatever others wrote meanwhile |
| JobRepository.SqliteJobRepository.FindStaleJobs | src/infrastructure/repositories/job_repository.py:221-230 | Up to limit jobs that are RUNNING with no heartbeat since the cutoff, each once; all of them when fewer than limit |
| JobRepository.SqliteJobRepository.ReapOnce | src/application/reaper.py:28-40 | Silent RUNNING jobs are failed one by one while others write in between; the count is the number of updates that found the version read; undisturbed, every job found is failed, and a job not RUNNING or heard of since the cutoff keeps its row |
| JobRepository.SqliteJobRepository.FailEach | src/application/reaper.py:28-40 | Each update sees what the one before it and the others left, and is counted iff it finds the version read |
| JobRepository.SqliteJobRepository.PurgeExpiredJobs | src/infrastructure/repositories/job_repository.py:358-396 | The batched loop removes exactly the jobs whose own retention, or else the caller's, had passed since deleted_at at its read, with their attempts, and counts them, whatever others wrote meanwhile; a raise at any statement commits nothing and leaves a part pending |
| PlaceSweep.Subdivide | src/application/place_sweep.py:341-371 | The nested loops produce exactly the cells of the grid |
| PlaceSweep.GridCovers | src/application/place_sweep.py:341-371 | For every radius and factor each point of the circle lies in one of the sub-circles |
| PlaceSweep.IntervalsCover | src/application/place_sweep.py:341-371 | The same along one axis: the cell centres are half a cell apart at most |
| PlaceSweep.CellOfSquare | src/application/place_sweep.py:341-371 | Each sub-circle is the one through the corners of its square of the grid |
| PlaceSweep.FactorAtLeastTwo | src/application/place_sweep.py:341-371 | The grid factor is the configured one, and two where that is less |
| PlaceSweep.Client.SearchNearby | src/infrastructure/places/google_places.py:210-250 | Exactly the places of the page whose id and name are not blank, trimmed, with or without website and phone; truncation judged by what was returned rather than what parsed |
| Text.StripSplits | src/infrastructure/places/google_places.py:83-89 | Trimming removes white space at the two ends and all of it |
| Text.StripBetween | src/infrastructure/places/google_places.py:83-89 | A text with no white space at its ends is what trimming leaves of it between any white space |
| Text.SpacesListed | src/infrastructure/places/google_places.py:83-89 | White space is the 29 characters Python strips, listed one by one |
| PlaceSweep.Accumulator.Add | src/application/place_sweep.py:311-335 | First sighting kept; later ones add area and source once and fill missing contact fields only; other listings untouched |
| PlaceSweep.NearbyPass | src/application/place_sweep.py:383-432 | A pass has collected every business of the type in the circle with an id and a name, or added a warning, or run out of quota; it warns only of a search that failed or of a full page not to be subdivided, labels what it finds with its area and search, adds nothing the service did not return; calls are bounded, exactly when every page is full |
| PlaceSweep.CallBoundIsPowerSum | src/application/place_sweep.py:383-432 | The bound is the sum over levels k of f^(2k) with f = max(2, factor) |
| PlaceSweep.SweepAreas | src/application/place_sweep.py:446-528 | A sweep that added no warning has missed nothing in any area and type, and no warning is without its cause |
| PlaceSweep.SweepTypes | src/application/place_sweep.py:446-528 | The same for the types of one area |
| Sessions.ExclusiveLeases | src/infrastructure/sessions.py:40-94 | In every run releasing each lease once: outstanding leases of a domain have different sessions, each live in its bucket, and exactly their ids are checked out |
| Sessions.SweepStrandsNoLease | src/infrastructure/sessions.py:96-108 | No sweep removes a domain with a session on loan |
| Sessions.PoolBoundedByPeak | src/infrastructure/sessions.py:40-65 | Live sessions of a domain never outnumber the peak of simultaneous leases |
| Sessions.ScoresAreHistory | src/domain/session.py:24-33 | Uses equal releases and stay within 50; the score is unblocked successes minus three times blocks |
| Sessions.RetiredNeverLeased | src/infrastructure/sessions.py:40-65 | No lease hands out a session that its history had retired |
| Sessions.FaceIsForGood | src/domain/session.py:12-33 | Through any leases, releases and sweeps a session keeps its persona and its proxy |
| Sessions.DrawnFaceIsKept | src/infrastructure/sessions.py:40-65 | From the empty pool: a leased session keeps its persona and proxy in every later state, and those of a new one are the ones drawn |
| Sessions.ReplacedExactly | src/infrastructure/sessions.py:67-94 | A release replaces the first session with its id where it is, or appends it when there is none |
| Sessions.DoubleReleaseShares | src/infrastructure/sessions.py:67-94 | Releasing twice after one lease lets two holders share a session |
| Sessions.HealthiestIsFirstMaximum | src/infrastructure/sessions.py:53-54 | The chosen session is the first of those with the highest score |
| Sessions.InvRun | src/infrastructure/sessions.py:40-108 | The pool invariant holds after any leases, releases and ticks |
| Sessions.SessionPool.Lease | src/infrastructure/sessions.py:40-65 | A free session of the domain of the highest score, in use below 50 and above -3, or a new one appended when there is none; its id is checked out and nothing else changes |
| Sessions.SessionPool.Release | src/infrastructure/sessions.py:67-94 | The session scored by +1, 0 or -3, with its identity kept and one more use, replaces the pool's in place, is checked in, and the sweep counter ticks |
| Sessions.SessionPool.SweepIfDue | src/infrastructure/sessions.py:96-108 | Every fiftieth tick keeps exactly the domains with a usable session, with their check-out sets; other ticks change nothing |
| Cache.Inclusion | src/infrastructure/cache.py:13-30 | On any common trace the smaller cache holds a part of the larger, same order, same values, and is equal to it until it has been full |
| Cache.HitsGrowWithSize | src/infrastructure/cache.py:20-24 | On any trace a larger cache hits at every lookup at which a smaller one does |
| Cache.UsedKeyStays | src/infrastructure/cache.py:20-30 | A key that was used is not evicted until as many other keys as fit have been used |
| Cache.Flooded | src/infrastructure/cache.py:26-30 | Setting as many different keys as fit leaves exactly those, in order |
| Cache.LevelsAgree | src/infrastructure/cache.py:80-125 | Through evictions, promotions and outages during lookups both levels agree with one map, if every store reached the shared level and came back as it was |
| Cache.NeverWrong | src/infrastructure/cache.py:80-125 | Each answer is then the map's; only a lookup without the shared level may miss instead |
| Cache.LikeAMapExactly | src/infrastructure/cache.py:80-125 | With the shared level in reach, all traces are answered like one map iff serialisation gives every value back |
| Cache.LocalOnlyIsLru | src/infrastructure/cache.py:80-125 | When no call reaches the shared level, answers and local state are those of the LRU cache on the same trace |
| Cache.StoredIsRead | src/infrastructure/cache.py:80-125 | With a positive size what was stored last is read back, in reach of the shared level or not, serialisable or not |
| Cache.FoundIsHeld | src/infrastructure/cache.py:80-106 | What one lookup found, the next finds without the shared level |
| Cache.LocalLRUCache.Get | src/infrastructure/cache.py:20-24 | A hit moves the key to the recent end and returns its value; a miss changes nothing |
| Cache.LocalLRUCache.Set | src/infrastructure/cache.py:26-30 | The key becomes the most recent and the oldest is evicted beyond the size |
| Cache.AICache.Get | src/infrastructure/cache.py:80-106 | Local level first, then the shared one with promotion; None counts as a miss; a local hit does not ask the shared level |
| Cache.AICache.Set | src/infrastructure/cache.py:108-125 | The local level is set whatever becomes of the shared one, which takes the decoded value exactly when it is in reach and the value serialises |
| Synthesis.AnswerSplitsToKept | src/application/synthesis_service.py:63-91 | For any raw text, splitting the joined kept sentences gives back exactly the kept sentences, and coverage of the answer is 1 |
| Synthesis.JoinThenSplit | src/application/llm_metrics.py:24-35 | Joining and splitting are inverse on chains of whole sentences |
| Synthesis.JoinConcat | src/application/synthesis_service.py:63-91 | Joining puts exactly one space between what it joins |
| Synthesis.SentencesChain | src/application/llm_metrics.py:24-35 | The sentences of any text form such a chain |
| Synthesis.OneSentenceExactly | src/application/llm_metrics.py:24-35 | A trimmed text is one sentence iff no white space in it follows a full stop, an exclamation mark or a question mark |
| Synthesis.SentencesKeepLetters | src/application/llm_metrics.py:24-35 | The sentences of any text hold all its characters but white space, in order |
| Synthesis.CitedExactlyWhenMarked | src/application/llm_metrics.py:38-43 | The left-to-right scan captures some id iff a well-formed marker stands in the sentence |
| Synthesis.FoundIdsAreMarked | src/application/llm_metrics.py:38-43 | Every captured id stands between record markers |
| Synthesis.CoverageIsShare | src/application/llm_metrics.py:84-102 | Coverage is the number of sentences with a well-formed marker over the number of sentences, and 1 without sentences |
| Synthesis.FilterUncitedClaims | src/application/synthesis_service.py:133-160 | A sentence is kept iff it cites a valid id; kept plus dropped is the number of sentences, and the cited ids are exactly the valid ids cited in kept sentences |
| Synthesis.Synthesize | src/application/synthesis_service.py:49-94 | Every sentence of the answer cites a gathered record, cited ids are gathered records cited in it, coverage is 1 |
| Synthesis.UnknownIdsDiscardedExactly | src/application/synthesis_service.py:133-160 | No unknown id is cited in the answer iff no raw sentence mixes known and unknown ids |
| Synthesis.FabricatedIdSurvives | src/application/synthesis_service.py:133-160 | For any two ids, a sentence citing one known and one fabricated id is published |
| Throttle.UnblockedClosedForm | src/domain/throttle.py:36-62 | A non-empty unblocked run, in any order and from any start, ends at min(max, max(start, 0, floor, largest target)) |
| Throttle.StepExactly | src/domain/throttle.py:36-62 | One step of any kind is the largest of the delay, the floor, the target and the penalty, within the ceiling: averaging never matters |
| Throttle.TargetShares | src/domain/throttle.py:36-62 | The target times the concurrency is the latency; without a concurrency it is the latency |
| Throttle.RunNeverLoweredExactly | src/domain/throttle.py:36-62 | A non-empty run leaves the delay no lower iff it started within the ceiling, and always within it |
| Throttle.BackoffsDouble | src/domain/throttle.py:36-62 | k blocks without Retry-After, whatever comes between, give at least min(max, 2^k times start) |
| Throttle.RetryAfterHonoured | src/domain/throttle.py:36-62 | After a block with Retry-After the delay never falls below it again, up to the ceiling |

## Left out

- Stream MAXLEN trimming, expiry of dedup and budget keys, and wall-clock idle times do not occur: a claim may happen at any moment instead.
- One stream and one consumer group: other streams, other groups and dedup keys shared between groups are not modelled; the relay's choice of stream by event type is not either.
- `_claim_pending` is the `Begin` step on any delivered entry; which pending entries XPENDING selects, and its own loop, are not modelled.
- The retry counts of a message under several consumers are bounded (`RetryBound`) but not exact: a claim can land between another handler's DEL and its XACK.
- Consume: the exact account is for one undisturbed consumer without faults and below the hard memory limit, as retry counts are exact only there; duplicate ids and taken keys are included, and `ProcessEntry` has all faults.
- Commit failures outside `transaction()`, task cancellation, job ids reused after a purge, and the error text of a state change.
- The Postgres adapters, and the outbox repository's own connection beside the job repository's.
- Several processes with a SQLite connection of their own to one file: one connection and its lock are modelled, so neither the transactions of another process nor its locks occur.
- The objects' methods take a raising store command as one without effect; the step systems allow that it took effect (a death right after it), and the crawl does so for every write. A budget check that raises has charged nothing.
- Which stale jobs are found first, and listing order generally.
- Enforcement of the job state diagram by the repository: the code does not do it, so nothing is claimed.
- Place sweep: latitude and longitude conversion (a local metre plane is used, with the double nearest to the square root of two), text queries, result filters and website classification, and the order of listings.
- Sessions: proxy choice and metrics; session, persona ids are parameters, new to their domain.
- Cache: key hashing, expiry and the lazy connection; other processes writing the shared level.
- Synthesis: record paging, the prompt, the model call and the groundedness score.
- Throttle: floating-point rounding and Retry-After parsing.
- Crawl: extraction of links from a page, deduplication and change detection; the page's links are an input. A delivery's enqueue loops are one step: writes of other processors are not interleaved between its own, which only permutes the shared stream. The budget tracker of mock mode, which processors do not share, is not used by runs of several.
- Overlay promotion, lead export, evaluation, exporters, authentication and configuration would add only easy members.
