# Protocols of a document chat platform, verified

The platform answers questions over a company's documents. Its workers, operators
and clients share rows in a database, and each change is one short transaction.
This project models four families of those transactions, and the sequential
algorithms beside them, and proves what every run keeps:

- **Chat generations** (`Generation`, `GenerationLaws`, `GenerationTheorems`,
  `GenerationWorkers`, `GenerationStore`, `Streaming`): executions are claimed under a lease and a fencing
  token, renewed, recovered, published, stopped, failed and reconciled; every step
  appends to an event log that clients replay.
- **Backups** (`Restore`, `RestoreLaws`, `RestoreTheorems`, `RestoreStore`,
  `WriteGate`, `Retention`, `RetentionStore`, `Schedule`, `Replay`): ordered restores
  with a read gate and a repair queue, snapshots behind a write gate, retention with
  retried deletions, scheduled windows with catch-up, and the replay of a table archive.
- **Ingestion and sources** (`Ingestion`, `IngestionStore`, `SourceAcks`): job leases
  with attempt limits, and consumers' acknowledgements of public graph revisions.
- **Inside the worker** (`Budget`, `ToolLoop`, `Rouge`, `RetrievalPort`): the budget
  meter, the tool loop's token reasoning, ROUGE-L by a two-row table, and the ownership
  of retrieval requests.

The same pattern is used throughout. A transaction is a function on rows, total on
every argument, so that a step may come from any past or present worker. A class
holds the rows as the source updates them, and each of its methods is proved equal to
its function; where the class is more than its loops, a driver performs arbitrary calls
and keeps the invariant. The theorems are about all runs of these functions. Where a module says
`Run(start, steps)`, the steps are arbitrary and interleave freely; a crash is a step.
That is more than the program does, which is right for what never happens. What can
happen to a generation is shown in `GenerationWorkers`, where each worker is confined to
the sequence that `run_once` lets it take.

## What turned out false

Some properties that the code is meant to have do not hold as stated. For each there
is the exact condition under which it does hold, and a run that reaches the failing
side.

- A stop request made while a provider result is unknown never ends by itself: the
  deadline closes an unknown result if and only if no stop was requested
  (`DeadlineClosesUnknownResult`, `StuckStopEndsExactly`, `StuckStopIsReachable`,
  `LateUpgradeEndsWait`).
- An open generation can be left with nobody to work on it. It happens if and only if a
  worker takes its current fence for lost, because the locking read of the fence skips (on PostgreSQL) a
  row that its own heartbeat, or maintenance, has locked at that moment; without a skipped
  read every open generation of every run has a live newest execution
  (`AttendedIffNeverMisread`, `AlwaysAttended`, `AbandonedIsReachable`).
- Claims of one generation are bounded by its quota and retries only in runs without
  provider reconciliation (`ClaimsAreBounded`, `ReconciliationsUnbound`).
- A client that resumes after the end is told that the stream is over if and only if it
  was missing frames (`ReconnectFinishesIffBehind`, `SilentIsReachable`).
- The token budget holds in every run if and only if no two sizes that can be pending
  together share a price, because a reservation is found by its cost alone
  (`NeverOverspendsIffSeparates`, `UpgradeNeverOverspendsIffSeparates`, `EqualPricesOverspend`).
- After a tool turn the follow-up answer is sure to fit if and only if the turn asked
  for at most one search (`FollowUpGuaranteedIffOneCall`); for observations of bounded
  length, if and only if the allowance covers one of them and a refusal for each further
  search, which at 48,000 characters are 28 searches (`FollowUpSureIffCovered`,
  `TwentyEightSearches`).
- A restore can no longer complete if and only if a rebuilt target still has an open
  repair or an object outside the manifest has one (`CanCompleteIffNotStuck`,
  `StuckAfterIffSticks`, `DerivedStuckIsReachable`, `OrphanStuckIsReachable`).
- The guard inside `start_restore` keeps restores unique if and only if none is blocked
  (`InnerGuardMissesBlocked`, `SecondRestoreIsReachable`).
- A backup's three references come from one holding of the write gate if and only if
  the gate was never released on it half done (`OneWindowIffNeverSplit`,
  `MixedBackupIsReachable`).
- Retention keeps the newest backups for good if and only if no backup completes that has
  a cleanup from a failed execution, none fails unmarked after it completed, and none that
  is marked then was counted on by what is being deleted (`NewestKeptIffClean`,
  `OnlyBackupIsPurged`, `LateFailureLosesAll`).
- A backup that a restore refers to is protected from retention if and only if it has no
  unfinished cleanup already and no sweep has just chosen it (`ProtectedIffNoCleanup`,
  `ReferencedButNotProtected`).
- A scheduled instant gets its backup if and only if no worker died past the claim on it
  (`ServedIffNotDropped`, `LostInstantIsReachable`).
- An ingestion token equals its attempt's number if and only if no running attempt was
  ever cancelled (`TokenIsNumberIffNoneCancelled`, `TokenPassesNumber`).
- A table replay keeps foreign keys at every statement if and only if the archive fits
  the database (`EveryStepHoldsIffFits`).

## Model

| member | source | states |
|---|---|---|
| GenerationTheorems.LogTellsStatus | app/chat/worker.py:3432-3450 | in every interleaving the click-filtered log has at most one terminal event, it is last, and its kind, error code or stop reason is exactly the row's |
| GenerationTheorems.AnswersOnlyWhenCompleted | app/chat/worker.py:2870-2960 | answers are in the log exactly of completed generations, one or two, right before `done` |
| GenerationTheorems.MessageAgreesWithLog | app/chat/worker.py:2905-2950 | the stored message of a completed generation is the answer that was streamed, and empty while two candidates are offered, until a vote |
| GenerationTheorems.VotedMessageIsCandidate | app/chat/generation.py:1180-1213 | after a vote the stored message is one of the two streamed candidates, or empty |
| GenerationTheorems.TerminalIsFinal | app/chat/events.py:46-53 | a terminal status never changes in any run, and nothing is replayed after the terminal event |
| GenerationTheorems.RunGrows | app/chat/events.py:18-43 | events, claims and control version only grow, at the end |
| GenerationTheorems.StopRequestWins | app/chat/generation.py:699-738 | once a stop request commits no run completes the generation or logs an answer or `done` |
| GenerationTheorems.StopFencesOff | app/chat/generation.py:699-738 | after a stop or a revocation in scope, no worker holding the control version from before it logs, checkpoints or publishes anything in any later state |
| GenerationTheorems.OneLiveExecution | app/chat/worker.py:393-486 | executions are attempts 1..n within the quota, and at most the newest is queued, waiting, running or reconciling |
| GenerationTheorems.ClaimTokensIncrease | app/chat/worker.py:856-914 | successive claims get strictly larger tokens, also across recoveries |
| GenerationTheorems.FenceIsLatestClaim | app/chat/worker.py:3231-3253 | a worker passes the fence exactly when its execution runs under the latest claim |
| GenerationTheorems.SupersededWorkerCommitsNothing | app/chat/worker.py:951-983 | after a newer claim no heartbeat, checkpoint, event or publication under an older token commits, in any later state |
| GenerationTheorems.ClaimsAreBounded | app/chat/worker.py:3161-3190 | claims are at most the execution quota plus the scope retries, plus what each reconciliation adds |
| GenerationTheorems.ClaimsWithoutReconciliation | app/chat/worker.py:464-484 | without reconciliation a generation is claimed at most quota plus scope retries times |
| GenerationWorkers.ReconciliationsUnbound | app/chat/worker.py:578-717 | with reconciliations some run of confined workers claims any given number of times within one execution |
| GenerationTheorems.DeadlineClosesUnknownResult | app/chat/worker.py:488-576 | past the deadline maintenance closes an unknown provider result if and only if no stop was requested |
| GenerationTheorems.StoppedUnknownResultNeverCloses | app/chat/worker.py:488-576 | a stop request over an unknown result stays open in every run without a publication, effort upgrade, failure or stop by some worker and without a provider answer |
| GenerationTheorems.StuckStopEndsExactly | app/chat/worker.py:3005-3111 | a step ends that wait exactly when it is a publication, effort upgrade, failure or stop by any worker, or an answer about this very execution |
| GenerationWorkers.StuckStopIsReachable | app/chat/worker.py:3135-3160 | an ask, a claim, a lost answer and a stop reach that state |
| GenerationWorkers.LateUpgradeEndsWait | app/chat/worker.py:1693-1751 | a run in which a worker whose execution has expired ends it, by an effort upgrade that finds the fence gone |
| GenerationWorkers.RunIsConfined | app/chat/worker.py:826-983 | over any run of workers that each go from claim through reads and work to one ending, an execution with a worker at it is neither waiting nor reconciling, and nobody has claimed it since |
| GenerationWorkers.FencePassesWhileLeased | app/chat/worker.py:3231-3253 | the fence of a worker at work passes exactly while its execution is leased and the generation runs |
| GenerationWorkers.AttendedIffNeverMisread | app/chat/worker.py:3005-3059 | after any such run an open generation has a live newest execution if and only if no worker acted on a current fence as if it were lost |
| GenerationWorkers.AlwaysAttended | app/chat/worker.py:3452-3470 | without a skipped read of a locked row that never happens: every open generation of every run is attended |
| GenerationWorkers.AbandonedForGood | app/chat/worker.py:856-914 | a generation without a live execution is never claimed again and never completes, in any run |
| GenerationWorkers.AbandonedIsReachable | app/chat/worker.py:2774-2800 | a claim, two reads and a publication that meets the row locked reach it |
| GenerationLaws.RunKeepsInv | app/chat/worker.py:259-279 | the shape of row, message, pair, log, executions, tokens and claims is kept by every run |
| GenerationStore.Store.constructor | app/chat/generation.py:309-549 | a new generation is running, with one queued execution and its start events |
| GenerationStore.Store.Publish | app/chat/worker.py:2774-2982 | publication behind the fence with a current scope closes row, message, pair, execution and log together; otherwise a stale execution is cancelled |
| GenerationStore.Store.Reap | app/chat/worker.py:281-391 | after the disconnect grace a generation without a live subscription is stopped and its executions cancelled |
| GenerationStore.Store.Recover | app/chat/worker.py:393-486 | executions whose lease is over are expired and requeued once, or the generation is closed |
| GenerationStore.Store.ExpireReconciling | app/chat/worker.py:488-576 | unknown results of running generations past their deadline fail |
| GenerationStore.Store.PerformAll | app/chat/worker.py:259-279 | any sequence of calls by users, workers and maintenance on the rows is a run, and keeps the invariant the theorems rest on |
| Streaming.ClientSeesTheLog | app/chat/streaming.py:72-142 | over any interleaving of transactions, polls, disconnects and resumes the frames received are a gap-free, duplicate-free beginning of the replay, and all of it after a stream that ended on a terminal frame |
| Streaming.ReconnectFinishesIffBehind | app/chat/streaming.py:84-115 | a client that resumes after the end is told that the stream is over if and only if it was still missing frames |
| Streaming.SilentForever | app/chat/streaming.py:92-115 | a client that had every frame and resumes is never told, whatever follows |
| Streaming.SilentIsReachable | app/chat/streaming.py:72-115 | on every closed generation a new client that reads it all, is cut off and resumes gets there |
| Streaming.FramesAreVisible | app/chat/events.py:56-92 | the frames are the log without citation clicks, in order |
| Streaming.ReplaySplits | app/chat/events.py:56-92 | what was sent followed by the events after its last id is the whole replay |
| Streaming.Subscription.PollOnce | app/chat/streaming.py:91-115 | a poll delivers the new frames until the client leaves, and backs off after five empty ones |
| Streaming.DeltaSink.Push | app/chat/worker.py:85-105 | deltas followed by what is pending are everything streamed so far, and a chunk flushes exactly at 240 characters or 0.4 seconds |
| Streaming.DeltaSink.Flush | app/chat/worker.py:107-114 | everything pending goes out as one delta |
| Rouge.LcsIsMaximum | app/chat/worker.py:3718-3728 | the recursive value is attained by a common subsequence and no common subsequence is longer |
| Rouge.LcsLength | app/chat/worker.py:3718-3728 | the two-row loop computes that value |
| Rouge.RougeScore | app/chat/worker.py:3703-3716 | the method returns the F-measure of the two ratios, with its cases for empty lists |
| Rouge.RougeClosedForm | app/chat/worker.py:3703-3716 | on non-empty lists the score is 2*lcs/(m+n) |
| Rouge.RougeLaws | app/chat/worker.py:3703-3716 | the score is symmetric, within [0, 1], and 1 exactly on equal lists |
| Budget.RunConserves | app/chat/budget.py:269-338 | over any run in which owners settle their own reservations, whatever they used, the reserved counters are the sums of what is pending, used tokens are all estimates plus all actuals, and calls and reserved cost stay within their caps |
| Budget.NewLedgerHolds | app/chat/budget.py:244-257 | a new meter satisfies what these results start from |
| Budget.GateIsRoom | app/chat/budget.py:269-293 | the gate admits an operation, in time and with a price, exactly when every cap still holds with its reservation entered |
| Budget.RunStaysWithinTokens | app/chat/budget.py:283-288 | with usage within the estimates and a pricer that tells apart sizes that can be pending together, consumed plus reserved tokens never exceed the cap, upgrades included |
| Budget.EqualPricesOverspend | app/chat/budget.py:326-338 | two reservations that can be pending together, of one price and different size, give a run that ends above the cap |
| Budget.NeverOverspendsIffSeparates | app/chat/budget.py:283-338 | where what fits the token cap can be afforded, the cap holds in every run within the estimates if and only if no two sizes that can be pending together share a price |
| Budget.UpgradeNeverOverspendsIffSeparates | app/chat/budget.py:340-352 | the same for runs that may upgrade by a level, by what can be pending together after the upgrade |
| Budget.BudgetMeter.Settle | app/chat/budget.py:326-338 | the first pending reservation of that cost goes, and actual usage is recorded |
| Budget.BudgetMeter.PerformAll | app/chat/budget.py:244-352 | any calls of the meter by owners are a run of it: the books balance and the caps hold |
| Budget.SelectCandidates | app/chat/budget.py:379-408 | from ranked hits, exactly the best hit of each of the first `limit` documents, in order, and whether an identity was missing |
| ToolLoop.FollowUpGuaranteedIffOneCall | app/chat/worker.py:2289-2374 | the follow-up answer is sure to pass the token gate if and only if the turn asked for at most one search |
| ToolLoop.FollowUpSureIffCovered | app/chat/worker.py:2289-2374 | with observations of bounded length it is sure if and only if the allowance covers one of them and a refusal for each further search |
| ToolLoop.TwentyEightSearches | app/chat/budget.py:35-36 | at 48,000 characters that is up to 28 searches |
| ToolLoop.LoopNeverOutOfTokens | app/chat/worker.py:2191-2411 | over a whole loop of turns with one search each and usage within estimates, no prompt after the first is refused for want of tokens |
| ToolLoop.AnswerCalls | app/chat/worker.py:2289-2374 | the loop over the calls: gate, search, gate again, or the exhausted observation |
| ToolLoop.RunCandidate | app/chat/worker.py:2191-2411 | the loop over model turns, with tools withdrawn when they are no longer affordable |
| RetrievalPort.OpenIffOwned | app/chat/ports.py:361-569 | over any sequence of calls the opened and unreleased requests are exactly the retained ones and the active one |
| RetrievalPort.ReleasedAtMostOnce | app/chat/ports.py:546-569 | no request is released twice |
| RetrievalPort.CallsOnlyOpenRequests | app/chat/ports.py:508-544 | search, resolution and revalidation only ever touch requests not yet released |
| RetrievalPort.NothingLeftOpen | app/chat/ports.py:546-556 | after a close, and after a revalidation however it ends, nothing is open |
| RetrievalPort.IndexingChatRetrievalPort.RunSearch | app/chat/ports.py:378-419 | a search gives back the unretained active request and keeps the new one only if it has hits |
| RetrievalPort.IndexingChatRetrievalPort.ResolveCitations | app/chat/ports.py:464-506 | available citations retain their request; what was resolved before an exception stays |
| RetrievalPort.IndexingChatRetrievalPort.RevalidateCitations | app/chat/ports.py:508-544 | retained citations are checked on their own request, then everything is closed |
| RestoreTheorems.StagesInOrder | app/backup/service.py:429-507 | the stages are a succeeded prefix, at most one failed stage, then pending ones |
| RestoreTheorems.SucceededStays | app/backup/service.py:606-692 | in every later state a succeeded stage is still so, with the same untouched succeeded targets; a completed restore never changes |
| RestoreTheorems.GateClosedIffActive | app/backup/service.py:241-313 | reads are closed for a restore exactly when it is the one that has not completed |
| RestoreTheorems.ReopensOnlyWhenRestored | app/backup/service.py:1027-1073 | the gate opens only by completing its restore: seven stages and all targets succeeded, no repair open |
| RestoreTheorems.RebuildCallsCounted | app/backup/service.py:630-692 | attempt and fencing epoch equal the committed rebuild calls, and no call follows a success |
| RestoreTheorems.FactsRestoredOnce | app/backup/service.py:530-551 | each fact snapshot restore commits at most once, database first, even when validation fails and is retried |
| RestoreTheorems.InnerGuardMissesBlocked | app/backup/service.py:262-286 | started through the inner guard alone, a restore leaves the gate with the one active restore if and only if none is blocked |
| RestoreTheorems.CanCompleteIffNotStuck | app/backup/service.py:429-507 | a restore can still complete if and only if no succeeded target has an open repair and no repair is open for an object outside the manifest |
| RestoreTheorems.StuckForever | app/backup/service.py:779-836 | from such a state no sequence of calls completes it |
| RestoreTheorems.StuckAfterIffSticks | app/backup/service.py:429-507 | a call leads to that state exactly when, seen from the session and the ports before it, it rebuilds a failed target of the next stage by advancing, or validates while a new orphaned object is there |
| RestoreTheorems.RetrySticksNot | app/backup/service.py:694-773 | retrying a target by itself never leads there: its success resolves the repair |
| RestoreTheorems.DerivedStuckIsReachable | app/backup/service.py:606-692 | four calls on a fresh restore reach a succeeded target with an open repair |
| RestoreTheorems.OrphanStuckIsReachable | app/backup/adapters.py:411-445 | two calls on a fresh restore reach an open repair of an orphaned object |
| RestoreTheorems.SecondRestoreIsReachable | app/backup/service.py:262-286 | a run after which the inner guard alone would start a second restore beside a blocked one |
| RestoreStore.Validate | app/backup/service.py:779-836 | mismatches, orphans and agreements of the two fact sources, as one change of the repair queue |
| RestoreStore.ExecuteTargets | app/backup/service.py:606-692 | each due target is called once and its failure opens a repair that did not exist |
| RestoreStore.FindRunnable | app/backup/service.py:456-474 | the scan finds the first failed, interrupted or pending stage |
| RestoreStore.RestoreService.StartRestore | app/backup/ops_service.py:508-539 | a restore starts exactly when none is active and the backup is complete, and closes the gate |
| RestoreStore.RestoreService.AdvanceRestore | app/backup/service.py:429-507 | one call executes, re-validates or gates as the source does, and writes nothing when a port raises |
| RestoreStore.RestoreService.PerformAll | app/backup/service.py:241-898 | any sequence of calls keeps one active restore at the gate and undoes nothing achieved |
| WriteGate.SnapshotsBehindOwnGate | app/backup/worker.py:405-445 | every provider call of every run happens while the gate is closed and held by that backup, across crashes, adoption and stale-gate recovery |
| WriteGate.CompleteHasAllThree | app/backup/service.py:1157-1176 | a complete set has all three components succeeded with their references |
| WriteGate.ReferencesAreFinal | app/backup/worker.py:447-472 | a recorded reference is never overwritten later |
| WriteGate.FailedForGood | app/backup/service.py:188-215 | a backup marked failed never completes |
| WriteGate.OneWindowIffNeverSplit | app/backup/worker.py:405-445 | the three references of a complete backup come from one holding of the gate if and only if it was never opened on the backup half done |
| WriteGate.SplitOnlyAtRelease | app/backup/worker.py:474-489 | only the release after a failure that could not be marked opens the gate on a half-done backup |
| WriteGate.MixedBackupIsReachable | app/backup/worker.py:474-489 | such a backup can complete with references from two holdings |
| WriteGate.WriteGateStore.CompleteComponent | app/backup/service.py:132-186 | a component is recorded, and the third success completes the set |
| WriteGate.WriteGateStore.PerformAll | app/backup/worker.py:405-623 | executions, crashes and recoveries in any order, on the rows, take every snapshot behind the own gate |
| Retention.NewestKeptIffClean | app/backup/worker.py:474-489 | if every sweep keeps at least k >= 1: at every moment of a run the newest k backups are safe through all that can follow cleanly, restorable ones are k or all, and the last-restorable guard does not decide, if and only if no set with a cleanup from a failed execution completes, none fails unmarked after completing, and a marked one was not among the k that something leaving relied on |
| Retention.OnlyBackupIsPurged | app/backup/worker.py:674-679 | a run in which an execution fails unmarked, is resumed and completes, and a sweep then purges the only restorable backup |
| Retention.LateFailureLosesAll | app/backup/worker.py:685-721 | a run in which the newest backup is marked failed after it completed while a sweep deletes the only other one, and none is left |
| Retention.ReferencedButNotProtected | app/backup/worker.py:697-717 | a clean run ends with a backup that is referenced after the sweep's check, and can be purged |
| Retention.CandidatesExactly | app/backup/worker.py:685-694 | the candidates are exactly the restorable backups beyond the newest kept and older than the cutoff |
| Retention.ProtectedIffNoCleanup | app/backup/worker.py:674-719 | at any moment of any run a referenced backup is safe for as long as it is referenced, and does not itself fail late, if and only if it has no unfinished cleanup and is not the candidate just chosen |
| RetentionStore.SweepKeepsPromise | app/backup/worker.py:669-734 | after a clean history a sweep that dies at any point leaves that promise kept |
| RetentionStore.RetentionSweeper.RunSweep | app/backup/worker.py:669-734 | the sweep's loops, with budget and remaining count, are that sequence of transactions |
| RetentionStore.RetentionSweeper.ProcessCleanup | app/backup/worker.py:859-927 | a cleanup is marked, then finished or postponed by its number of attempts |
| Schedule.DueExactly | app/backup/worker.py:226-243 | the due list is exactly the scheduled instants after the start and up to now, ascending |
| Schedule.DueWindows | app/backup/worker.py:226-243 | the day loop computes that list |
| Schedule.NextRunAt | app/backup/ops_service.py:315-335 | the next run is the least scheduled instant after now, and missing exactly when the policy is off |
| Schedule.NextIsHeadOfDue | app/backup/ops_service.py:315-335 | the announced next run is what any later due list from there starts with |
| Schedule.RowsAreExactlyTheSchedule | app/backup/worker.py:208-375 | over any ticks, releases and crashes, up to the last served instant the rows are exactly the scheduled instants |
| Schedule.OneBackupPerInstant | app/backup/worker.py:271-321 | no instant gives rise to two backups |
| Schedule.ServedIffNotDropped | app/backup/worker.py:271-375 | an executed instant that no tick is working on has its backup if and only if no worker died past the claim on it and no release of it failed |
| Schedule.AbandonedClaimIsNeverServed | app/backup/worker.py:271-287 | a claim without a live tick keeps its row and gets no backup in any later run |
| Schedule.LostInstantIsReachable | app/backup/worker.py:271-287 | the run of one tick, one claim and one crash after which the first midnight is never served |
| Replay.EveryStepHoldsIffFits | app/backup/adapters.py:285-303 | foreign keys hold after every delete and every inserted row if and only if no table that stays refers to a replayed one, the archive is consistent, and self-references come in order |
| Replay.Database.Restore | app/backup/adapters.py:269-304 | the replay succeeds exactly under that condition, ends with the archived rows, keeps integrity after each statement, and otherwise is undone |
| Replay.Database.ResyncSequences | app/backup/adapters.py:309-342 | each sequence goes on above every restored id and not below where it was |
| Replay.NextAfter | app/backup/adapters.py:324-338 | the greater of the largest id plus one and the sequence's own next value |
| Ingestion.RunningIffOneRuns | app/documents/jobs.py:273-326 | a job is running exactly when one attempt runs, and that is the newest, the active and the only one |
| Ingestion.TokensIncrease | app/documents/jobs.py:105-126 | fencing tokens strictly increase with the attempts |
| Ingestion.TokenIsNumberIffNoneCancelled | app/documents/service.py:4665-4690 | a claim's token is its attempt's number if and only if no running attempt was cancelled |
| Ingestion.TokenPassesNumber | app/documents/service.py:4665-4690 | claim, cancel and replay reach a job whose next token passes its number |
| Ingestion.AtMostFourAttempts | app/documents/jobs.py:477-502 | a replay generation has at most four attempts |
| Ingestion.BackoffInRange | app/documents/jobs.py:490-496 | when an attempt ends its count is between one and four |
| Ingestion.RetryLadder | app/documents/service.py:4819-4846 | retries wait one, five and thirty minutes by the attempt's number in its generation, and the fourth failure is final |
| Ingestion.AtMostOneStaged | app/documents/jobs.py:127-163 | at most one publication is staged, while the job is pending or running |
| Ingestion.OldLeaseIsDead | app/documents/jobs.py:357-430 | once an attempt has ended, no lease on it is renewed or can end the job in any later run |
| Ingestion.OnlyLatestRenews | app/documents/jobs.py:373-398 | only the latest claim's lease can be renewed, under the largest token |
| IngestionStore.JobsCoordinator.ReclaimExpired | app/documents/jobs.py:432-605 | every running job whose lease is over is reclaimed, the others stay |
| IngestionStore.JobsCoordinator.ClaimNext | app/documents/jobs.py:55-343 | the oldest runnable job is claimed and its lease can be renewed; without one nothing changes |
| IngestionStore.JobsCoordinator.RenewLease | app/documents/jobs.py:357-430 | the lease moves exactly while it is the job's current one |
| SourceAcks.AcceptedIffAllowed | app/documents/public_graph.py:401-588 | a new request is accepted if and only if: stage once; release, roll back and discard once each, after staging and before discarding; release only at the head |
| SourceAcks.AtMostOnce | app/documents/public_graph.py:542-558 | no consumer has two rows of a purpose for one revision, no operation two rows |
| SourceAcks.DiscardedForGood | app/documents/public_graph.py:474-532 | after a discard nothing of that revision is held by that consumer again |
| SourceAcks.RepeatedRequestIsAnswered | app/documents/public_graph.py:438-465 | a repeated request gets its own row in every later state and changes nothing; another under its operation conflicts |
| SourceAcks.HeadIsLastChange | app/documents/public_graph.py:138-189 | the head is the last manifest, and its revision and fence equal both counters and the number of changes |
| SourceAcks.SourceService.RecordSourceChange | app/documents/public_graph.py:138-214 | a change moves counters, manifests and head together, or nothing without an outbox |
| SourceAcks.SourceService.AcknowledgeConsumption | app/documents/public_graph.py:401-588 | the checks in the order of the source, with the row added and held rows discarded |

## Left out

- Row locks, isolation levels and threads: each transaction is one atomic step, and a step that raises has no effect. A fence read that skips a locked row is an input of the step; where claims and maintenance skip one, nothing happens, as in a pass that did not look.
- Task leases of the backup worker: one sweep, one executor and one schedule tick at a time is assumed. Under two ticks a released claim could leave a served instant without a row.
- Starting a restore is one step: the guard of the operations service and the transaction behind it are not separated, so two starts racing with a restore that becomes blocked in between are not covered.
- Floating point: ROUGE-L, prices and the factor 1.1 are exact reals or rationals; with floats the observation allowance is 52,801 + 2,000 instead of 52,800 + 2,000.
- Time is an integer and money a real; daylight saving and zone databases are replaced by one fixed offset in `Schedule`.
- Providers, embeddings, object stores, the network and clocks are inputs of the steps; hashes and random identifiers are given values.
- Chat: several generations at once and their ordering, rate and concurrency limits, idempotency records, retry of a failed generation, A/B sampling and calibration windows, the effort columns, message notices and citations' texts, deletion of conversations, the budget's checkpointed counters.
- Choosing which of several due executions is claimed: a generation has at most one, and the choice among generations is outside the model. The candidate table: a vote takes its text from the logged answers, which hold the same contents.
- Budget: `reset_usage` of `upgrade_policy`, which no caller sets; a pricer that changes with the policy on an upgrade (one pricer serves the whole run); `GenerationBudget`, whose counters are the meter's; hits are given to SelectCandidates already ranked.
- Budget.NeverOverspendsIffSeparates: speaks of a meter without a deadline, as does UpgradeNeverOverspendsIffSeparates.
- ToolLoop: a provider call that raises ends the loop and is not modelled, nor is the check that an answer is not empty; an assistant turn has no characters, as in the source.
- ToolLoop.FollowUpGuaranteedIffOneCall: speaks of the token gate only; deadline and cost can still refuse the answer.
- Restore: audit rows, lease tokens and timestamps of targets, failure classifications, and the status `failed` of a session, which nothing sets. A stage found running is never committed, so that branch is kept but not reached.
- WriteGate: waiting for admitted writes is a step that succeeds or times out; `create_full_backup_set`, which takes snapshots without the gate; cleanup rows of failed sets (they are in `Retention`, with sets whose failure could not be marked).
- Retention: sets complete at strictly increasing times; choosing a candidate is one step, and marking, deleting and recording a cleanup another, since only the last of these is seen by others.
- Schedule: changes of the policy within a run, and the audit rows of a tick.
- Replay: types of columns and their text form, cascading deletes (children are deleted first), how the parents-first order is found (it comes from the table reflection), and the object snapshots.
- Ingestion: document and version rows, quota, notifications, upload batches and restore holds; a receipt without a prior attempt; the authorization and generation checks of a receipt, which only refuse.
- SourceAcks: the schema of publications in a manifest, and the outbox event beyond its presence.
- RetrievalPort: assembling hits and citations, and a release that raises.
