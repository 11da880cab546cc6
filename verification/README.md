# FrameControl: verified model of the queue, resume chains and their supporting algorithms

A Dafny 4.11 model of FrameControl's hardest behaviour, and proofs about it. `dafny verify dfyconfig.toml` checks
all of it.

**The queue as one machine.** `QueueStore` holds the rows (queue entries, executions with their runs) and one function
per transaction. `QueueHolds`, `CancelTokens` and `QueueWorkers` are the hold, the running job's token and the worker,
each as a class whose methods change its fields in place and as the functions those methods are proved equal to.
`QueueRequests` is what a client's park, unpark or cancel does with them, other threads let in wherever it holds no
lock, and `TrueRefusals` that what it answers is true. `ChainSteps` is the chain of runs one
execution makes, as moves between its reads of the token. `QueueMachine` interleaves all of it: a step is one section
under the worker's lock, one transaction, one read of the token by the chain, one token call made after the lock was
released, a crash, or a transaction of recovery; a world is reachable when some sequence of steps leads to it from an
empty store. `QueueInvariant` proves what every step keeps, `QueueTheorems` what that means for every run, and
`EventLives` what the published events of one entry can be. `StoppedJobs` is what a stop leaves a chain to do,
`StopHistory` why each stopped entry ended as it did (from notes taken along the run), with a concrete run in
`StrayStop`, `HeldResumes` what a waiting or running resume keeps, and `QueueProgress` that the worker is never stuck
and each request is taken exactly when the rows allow it.

**Resume chains and deletion.** `ResumeChain` is the walk back to the last succeeded run, with its two readers (a
resume, and a deletion); `HistoryDelete` is the deletion; `ChainHistory` is what every transaction keeps about chains.
`Resumability` says which entries can be resumed, told of their states and runs alone. `QueueRecovery` is recovery after
a crash.

The walks, and so the deletion, need links that point to older entries, and the two readers agree where a resumed entry
has finished; `ChainHistory` proves both of every reachable store, and `QueueTheorems.DeletionsAreExact` puts them
together.

**One execution.** `ChainExecutor` is the executor's loop with its cooldown, against everything other threads may ask of
its token between two reads; every execution is a path of `ChainSteps`, the same moves the queue's machine makes. `LapDecisions` is what an execution
comes to: which lap ends it, and with what.
`ResumedTail` is what each run is given, and what a resume gives.

**Windows over unbounded logs.** `EventBacklog` (with the watching loop) and `KnobRing` (with the checkpoints).

**Algorithms.** `TextWalk` (the explicit-stack graph walk and the recursive check it is compared with), `Cooldowns` and
`Admission` (the worst-case bound), `ForecastFloor` (when bars never go back), `RunSelection` and `RunCompiler` (the
memoised compiler).

## Where the code and its own words differ

- `src/framecontrol/jobs/executor.py:668-670` says that a park withdrawn before it was taken leaves the rest of the
  cooldown to wait out, so a job that runs on still gets its full cooldown. There is one window where it does not: a park
  that lands after a turn's `take_park()` has refused and before the park count is read again cuts the next wait, and,
  once withdrawn with none asked after it, compares as already counted, so the job goes on short. `AJobMayGoOnShort` is a
  concrete case, `ShortExactlyFromAPendingRead` says that a park pending at that read is exactly what makes it possible,
  and `TheWholeCooldownIsWaited` proves the promise for every other interleaving.
- `src/framecontrol/jobs/executor.py:374`: a resume does not carry over the image of the independent segment it is cut
  in. Every later handoff-consuming run of that segment is then measured against what the cut run left, where the
  uninterrupted chain measures it against what the run that started the segment left. `ResumeMeasuresAlike` says of
  every cut and every later run that the two agree exactly when no segment has started by then, the last one started at
  the cut or after it, or the two images are the same; `AResumeMayMeasureAnother` is a concrete job where they are not.
  What the runs are given is the same; only the color measurement differs.
- A token call is made after the lock is released (`src/framecontrol/services/queue_worker.py:172`), so one meant for an
  entry that has ended may stop the next one's job. `StrayStop` is a whole run in which that job reads failed, though no
  stop was ever marked for it; `WhyAStoppedJobEnded` says of every run that a job the worker ended interrupted reads
  failed exactly when no stop was marked for it in time, and that such a stray call was then made on its token.
- `src/framecontrol/jobs/executor.py:407-414`: a stop that reaches the token after a look for it may still lose to a
  park the loop looks for next. `AStoppedChainMayPark` says exactly where: at a look for a park that comes
  right after its look for a stop.
- `src/framecontrol/services/forecast_publisher.py:7-9` says that a bar never moves back within a run or a job. It keeps
  the larger of the held floor, the new forecast's share and, only if that starts where the one just before does, what
  that one shows by then. `BarsNeverGoBack` proves the promise exact: a bar never goes back in its life if and only if
  every forecast that carries it follows the one that carried it before at once and from the same start, or finds that
  one at its floor when replaced, or has by itself a share no less. Two ordinary jobs break it: one parked in its second
  run, whose bar becomes the run's (`AParkMayGoBack`, from 0.7 to 0.5), and one whose second run has no history, parked
  twice in its first (`AGapMayGoBack`, from 0.8 to 0.09).
- `src/framecontrol/server/event_backlog.py:37` starts the IDs at a clock in milliseconds. The watching loop relies on
  the first ID being at least 2: from ID 1 a client would start at 0, which means "replay nothing", for good
  (`ZeroIsNeverReplayed`).

## Model

| member | source | states |
|---|---|---|
| QueueTheorems.RunningRowIsTheClaimedOne | src/framecontrol/services/queue_worker.py:310-341 | in every reachable world a row reads running exactly while its entry is claimed and not marked finished, so at most one does, recovery included |
| QueueTheorems.ClaimsTakeTheOldest | src/framecontrol/services/queue_worker.py:310-330 | a claim goes through exactly when something waits, the queue is not held and no stop was asked, and takes the least waiting number |
| QueueTheorems.ClaimsComeInOrder | src/framecontrol/state/queue.py:297-306 | one process's claims have strictly rising queue numbers |
| QueueTheorems.FinalStatesStand | src/framecontrol/services/queue_worker.py:501-512 | through any later steps a row in a final state stays exactly as it is |
| QueueTheorems.AFinishedEntryReadsAsItsExecution | src/framecontrol/services/queue_worker.py:514-526 | in every reachable world a finished entry is succeeded or parked exactly when its execution is, and cancelled or interrupted only when that was stopped, recovery included |
| QueueTheorems.TermsStand | src/framecontrol/services/queue_callers.py:27-31 | an entry's submitter, what it resumes and its runs never change, so a permission checked without the lock is still good under it |
| QueueTheorems.StopReachesTheClaimed | src/framecontrol/services/queue_worker.py:132-146 | after stop's section whatever is claimed has a stop pending, and no claim goes through any more |
| QueueTheorems.AcceptedStopReachesTheToken | src/framecontrol/services/queue_worker.py:440-452 | with a stop pending, once the start guard's call and the call meant for the entry are made, the token is asked to stop until the job has ended |
| StoppedJobs.AStoppedChainStartsAtMostOne | src/framecontrol/jobs/executor.py:375-421 | however a chain with a stop asked goes on, it starts no run but one it was already past its check for, and parks only if it could by then |
| StoppedJobs.AtItsCheckItEnds | src/framecontrol/jobs/executor.py:375-378 | from the top of the loop it makes no more runs and ends interrupted, or failed by an error |
| StoppedJobs.AStoppedChainMayPark | src/framecontrol/jobs/executor.py:407-421 | it can still end parked exactly when it has, or stands at a look for a park, its look for a stop just made |
| StoppedJobs.AnAcceptedStopStartsAtMostOneRun | src/framecontrol/services/queue_worker.py:440-452 | in any run of the queue, once the calls of a pending stop are made its job starts at most one more run, and none unless it is past its check |
| QueueTheorems.CancelledOnlyByItsOwnCancel | src/framecontrol/services/queue_worker.py:514-526 | an entry reads cancelled only if a cancel of that very entry was accepted |
| StopHistory.WhyAStoppedJobEnded | src/framecontrol/services/queue_worker.py:514-526 | in every run a job the worker ended interrupted reads cancelled exactly when a cancel's mark came first, interrupted exactly when a shutdown's did, and failed exactly when none was marked, and then a call meant for another entry was made on its token |
| StopHistory.RunKeepsNotes | src/framecontrol/services/queue_worker.py:132-174 | the notes of marks, accepted cancels and stray calls agree with the world after every step of every run |
| StrayStop.AStrayCallFailsTheNextJob | src/framecontrol/services/queue_worker.py:164-174 | a reachable world in which an entry reads failed, its execution interrupted, with no cancel of it accepted and no stop marked |
| QueueTheorems.CancelReachesEveryActiveEntry | src/framecontrol/services/queue_cancel.py:35-43 | an entry is active exactly when one of the two sections of a cancel accepts it, and never both do |
| QueueTheorems.ACancelMissesOnlyAnEnd | src/framecontrol/services/queue_cancel.py:36-43 | a cancel that finds its entry neither waiting nor, any steps later, claimed has missed only its end |
| QueueTheorems.EventsTellALife | src/framecontrol/services/queue_claim_gate.py:28-49 | each event of each entry comes where its life allows it: never running before queued, nothing after the end |
| EventLives.EveryEntryTellsAStory | src/framecontrol/services/queue_claim_gate.py:28-49 | at every moment of every run an entry's events are exactly: queued, at most once again as the worker leaves, then cancelled; or queued, running, parks in turn from true, and one final state, so far as its row says it has come |
| EventLives.InOrderTellsAStory | src/framecontrol/services/queue_events.py:28-44 | events in order are one of these stories to the last one, and tell which |
| QueueTheorems.EventsTellTheRow | src/framecontrol/services/queue_events.py:28-44 | a reader of the events knows each row's state and park reservation, but for an end not published yet |
| QueueTheorems.NothingIsClaimedUntilReleased | src/framecontrol/services/queue_worker.py:312-315 | on a held queue no claim goes through, crashes and restarts included, until a step ends the hold |
| QueueTheorems.AClaimAfterAParkNeedsARelease | src/framecontrol/services/queue_worker.py:180-199 | between an accepted park and the next claim some release, or unpark that released the hold, went through |
| QueueTheorems.APersonsHoldStands | src/framecontrol/services/queue_hold.py:107-144 | in every run, agents' holds, parks, unparks and releases and restarts included, a person's hold stays a person's, and memory reads as its row, until a person ends it |
| QueueTheorems.OnlyALateReleaseSkipsTheWait | src/framecontrol/services/queue_worker.py:253-256 | the next claim's wait is dropped only by a release made while nothing runs |
| QueueTheorems.RefusedUnparkChangesNothing | src/framecontrol/services/queue_worker.py:201-221 | each answer of an unpark exactly, by the row's marks, the token and whose the hold is; a refusal changes nothing, and an accepted one withdraws the reservation with the hold it made |
| QueueTheorems.AnAgentKeepsAPersonsPark | src/framecontrol/services/queue_hold.py:138-139 | an agent's unpark of a reservation whose hold is that entry's and a person's is never accepted, and everything stands |
| QueueTheorems.AParkReservesAndHolds | src/framecontrol/services/queue_worker.py:186-199 | a park's every answer, and all it does: the reservation with the queue held, by this entry and caller when it was not, the token told and the event published once; nothing when it is refused |
| QueueTheorems.AnUnparkUndoesItsPark | src/framecontrol/services/queue_worker.py:206-221 | on a queue not held an unpark by the same caller undoes a park, but for the park count |
| QueueTheorems.AReleaseSkipsExactlyWhen | src/framecontrol/services/queue_worker.py:247-259 | a release ends the hold and drops the wait exactly when it is held, asked by one who may and deleted, the latter with nothing claimed that has not finished |
| QueueTheorems.AnUnparkedEntryNeverParks | src/framecontrol/services/queue_worker.py:201-221 | an entry with no reservation never ends parked, crashes included, unless a later park reserves it |
| QueueTheorems.AnAcceptedUnparkIsNotParking | src/framecontrol/jobs/executor.py:232-235 | an accepted unpark leaves its entry in such a state, whatever the executor was about to read |
| QueueTheorems.ACrashRequeuesOnlyTheUnstarted | src/framecontrol/services/queue_recovery.py:26-39 | a crash at any step has the claimed entry requeued exactly when its execution was never recorded, and then none of its runs had started |
| QueueTheorems.RestartRecovers | src/framecontrol/services/queue_host.py:55-83 | the transactions between two processes end in the store recovery specifies, ready to serve |
| QueueTheorems.ChainsAreWhole | src/framecontrol/services/queue_resume.py:54-85 | through any history the succeeded runs along a chain are 1 to k with no gap or repeat, a succeeded entry has them all, a parked one some and not all, and each entry is resumed at most once |
| QueueTheorems.ResumesContinueTheChain | src/framecontrol/services/queue_resume.py:213-235 | a resume resolves to run k + 1, or is refused for no run made, none left, or something of the chain gone |
| HeldResumes.AnActiveResumeIsHeld | src/framecontrol/server/routes_executions.py:56-59 | in every reachable world a waiting or running resume's execution is there, made the run before its first, its chain whole to there, and until it has made a run it resolves as it did |
| HeldResumes.AResumeKeepsWhatItWasResolvedTo | src/framecontrol/server/routes_queue.py:237-241 | through any later steps a resume keeps its execution and first run, and the execution is there until it ends |
| HeldResumes.DeletionKeepsHeld | src/framecontrol/services/history_delete.py:49-63 | no deletion takes what a waiting or running resume was resolved to |
| Resumability.ResumableExactlyWhen | src/framecontrol/services/queue_resume.py:68-85 | in every reachable world a resume is accepted exactly when its entry finished in any state but succeeded, no entry resumes it, what its chain goes back on is there, and the chain made a run and has one left |
| Resumability.AParkedJobCanGoOn | src/framecontrol/services/queue_resume.py:27 | a parked entry with nothing of its chain gone, and not resumed, can be resumed at the run after its last |
| Resumability.ADeletionTellsOfAParkedJob | src/framecontrol/services/history_delete.py:71-88 | a deletion of any execution such an entry's chain reads is told to end its resume |
| QueueProgress.TheWorkerIsNeverStuck | src/framecontrol/services/queue_worker.py:296-341 | in every reachable world of a process whose worker has not left its loop, the worker can take a step |
| QueueProgress.RequestsAreTakenExactly | src/framecontrol/services/queue_claim_gate.py:28-55 | a submission, a resume's resolution, a cancel and a deletion are each taken exactly when the rows allow it |
| QueueProgress.ASubmissionAddsItsEntry | src/framecontrol/state/queue.py:219-234 | one waiting entry under the next number, from run 1, for its caller, and nothing else |
| QueueProgress.AResumeAddsItsEntry | src/framecontrol/services/queue_resume.py:88-110 | one waiting entry that starts at the run after its chain's last, of the same total, linked to the entry and the execution it resumes |
| QueueProgress.ACancelGoesThrough | src/framecontrol/services/queue_worker.py:164-174 | a cancel of the claimed entry and its token call can always be made, and then both the marks and a running token show it |
| QueueProgress.AShutdownGoesThrough | src/framecontrol/services/queue_worker.py:132-146 | so can the three steps of a shutdown, which leave an earlier stop's reason as it is |
| QueueTheorems.DeletionsAreExact | src/framecontrol/services/history_delete.py:36-46 | in every reachable world a deletion lists exactly the resumes it ends, and every waiting or running entry resolves as before |
| QueueInvariant.StepKeepsInv | src/framecontrol/services/queue_worker.py:132-536 | every step of every actor keeps rows, marks, token, hold, events, claims, cancels and chains in agreement |
| QueueInvariant.EveryReachableWorldIsSound | src/framecontrol/services/queue_worker.py:296-341 | so every reachable world is in that agreement, from an empty store and any saved hold |
| QueueWorkers.QueueWorker.constructor | src/framecontrol/services/queue_worker.py:78-119 | a worker starts with nothing claimed and the hold its saved row reads as |
| QueueWorkers.QueueWorker.Enqueue | src/framecontrol/services/queue_claim_gate.py:28-37 | the insert with its event, as one section |
| QueueWorkers.QueueWorker.CancelQueued | src/framecontrol/services/queue_claim_gate.py:39-49 | cancels and publishes exactly when the entry still waits |
| QueueWorkers.QueueWorker.CancelRunning | src/framecontrol/services/queue_worker.py:164-171 | marks a stop for the claimed entry, the first reason standing |
| QueueWorkers.QueueWorker.Stop | src/framecontrol/services/queue_worker.py:135-140 | marks a shutdown's stop for whatever is claimed, unless one is marked |
| QueueWorkers.QueueWorker.ParkRunning | src/framecontrol/services/queue_worker.py:186-199 | the hold first, then the reservation, its token call and its event; nothing of it when the hold cannot be saved |
| QueueWorkers.QueueWorker.UnparkRunning | src/framecontrol/services/queue_worker.py:206-221 | the hold and the reservation go together or stay together |
| QueueWorkers.QueueWorker.Hold | src/framecontrol/services/queue_worker.py:237-243 | a direct hold, the running job untouched |
| QueueWorkers.QueueWorker.Release | src/framecontrol/services/queue_worker.py:247-259 | a release, dropping the wait before the next claim once the claimed job has ended |
| QueueWorkers.QueueWorker.ClaimOne | src/framecontrol/services/queue_worker.py:312-330 | the claim, or the putting back of one made as shutdown began |
| QueueWorkers.QueueWorker.StartGuard | src/framecontrol/services/queue_worker.py:440-452 | applies a pending park under the lock and answers whether a stop is pending |
| QueueWorkers.QueueWorker.Finish | src/framecontrol/services/queue_worker.py:507-509 | the final row and the finished mark in one section |
| QueueWorkers.QueueWorker.FailToStart | src/framecontrol/services/queue_worker.py:528-536 | fails the entry and clears its link |
| QueueWorkers.QueueWorker.ReleaseEntry | src/framecontrol/services/queue_worker.py:335-336 | lets go of the claimed entry |
| QueueRequests.ParkEntry | src/framecontrol/services/queue_park.py:33-52 | refuses by the row as read, an agent on a person's entry first; otherwise does what the worker's section does to the state it meets, and answers a decline by what the later reads meet, other threads free in between |
| QueueRequests.UnparkEntry | src/framecontrol/services/queue_park.py:55-71 | the same for an unpark, a taken park told apart from an end |
| QueueRequests.CancelEntry | src/framecontrol/services/queue_cancel.py:20-43 | a waiting entry is cancelled; one claimed since falls through to the running one's stop, marked before its token is told; a finished one is refused |
| QueueRequests.WhoIsForbidden | src/framecontrol/services/queue_callers.py:16-31 | exactly an agent on what a person submitted is forbidden |
| TrueRefusals.AParkRefusalIsTrue | src/framecontrol/services/queue_park.py:47-52 | whatever others do meanwhile, a park declined after its entry was read running names the stop marked for it as it was declined, or the state it ended in |
| TrueRefusals.AnUnparkRefusalIsTrue | src/framecontrol/services/queue_park.py:66-71 | a declined unpark says the entry has parked exactly when it has, or its park was taken and it still runs; otherwise the state it ended in |
| TrueRefusals.ACancelTellsTrue | src/framecontrol/services/queue_cancel.py:35-43 | a cancel of an entry it read active cancels it waiting, marks its stop, or came after its end |
| QueueHolds.QueueHold.constructor | src/framecontrol/services/queue_hold.py:74-79 | memory begins as the saved row reads |
| QueueHolds.QueueHold.Hold | src/framecontrol/services/queue_hold.py:90-120 | the hold, or taking over of one, the row first; a failed save changes nothing |
| QueueHolds.QueueHold.Release | src/framecontrol/services/queue_hold.py:132-144 | the release, only of its own hold for an unpark; a failed delete changes nothing |
| QueueHolds.MemoryReadsAsTheRow | src/framecontrol/services/queue_hold.py:49-67 | after any calls, failed saves and deletes included, memory is what the row reads as |
| QueueHolds.PersonsHoldStands | src/framecontrol/services/queue_hold.py:107-120 | a person's hold stays held and a person's through any calls by anyone until a person releases it |
| QueueHolds.HoldLasts | src/framecontrol/services/queue_hold.py:90-105 | any hold lasts, begun when it began, until some release ends it |
| QueueHolds.ReleaseEndsExactlyWhenAllowed | src/framecontrol/services/queue_hold.py:132-144 | exactly when a release ends the hold; any other leaves it as it was |
| QueueHolds.ReleaseAnswersExactly | src/framecontrol/services/queue_hold.py:132-144 | when each answer of a release is given: nothing of it to end, refused to an agent on a person's, the delete failed, or ended |
| QueueHolds.AFirstHoldIsTheCallers | src/framecontrol/services/queue_hold.py:90-105 | a hold where there was none is the maker's and the caller's from now, and none when it cannot be saved |
| QueueHolds.AHoldAgainKeeps | src/framecontrol/services/queue_hold.py:107-120 | one more hold: a direct one is no entry's from then on, a person's stays or becomes a person's, and it began when it began |
| QueueHolds.ADirectHoldOutlastsUnparks | src/framecontrol/services/queue_hold.py:107-112 | through any parks and unparks a direct hold lasts until a direct release |
| QueueHolds.ADamagedRowHolds | src/framecontrol/services/queue_hold.py:49-67 | a row that cannot be read holds the queue, whatever parks and unparks come, and an agent cannot release it |
| QueueHolds.PersonTakesOverAnAgentsHold | src/framecontrol/services/queue_hold.py:107-120 | a person's hold or park makes an agent's hold the person's, unless it cannot be saved |
| CancelTokens.RequestsOnlyAdd | src/framecontrol/core/process/signals.py:161-195 | whatever others ask of a running token, a stop stays asked, a taken park stays taken, the park count never falls, and a park not asked anew was there before |
| CancelTokens.ATokenShowsWhatWasAsked | src/framecontrol/core/process/signals.py:161-195 | exactly what any requests leave of a running token: a stop if one was asked, the park as last asked unless taken, every park counted |
| CancelTokens.ABegunTokenShowsNothing | src/framecontrol/core/process/signals.py:139-151 | a job's token shows only what was asked since it began |
| CancelTokens.AnEndedTokenTakesNothing | src/framecontrol/core/process/signals.py:153-202 | between jobs no stop and no park is taken, and a taken park stays |
| CancelTokens.CancelToken.Begin | src/framecontrol/core/process/signals.py:139-151 | one job at a time, every mark of the one before gone |
| CancelTokens.CancelToken.End | src/framecontrol/core/process/signals.py:153-159 | the job's end keeps what it was asked |
| CancelTokens.CancelToken.Cancel | src/framecontrol/core/process/signals.py:161-172 | a stop is accepted exactly while a job runs |
| CancelTokens.CancelToken.Park | src/framecontrol/core/process/signals.py:174-183 | a park is accepted exactly while a job runs, and counted |
| CancelTokens.CancelToken.Withdraw | src/framecontrol/core/process/signals.py:185-195 | the withdrawal, only of a park not taken |
| CancelTokens.CancelToken.TakePark | src/framecontrol/core/process/signals.py:197-202 | the check and commit at a run boundary; once taken, it stays so |
| QueueStore.OldestQueuedIsLeast | src/framecontrol/state/queue.py:297-306 | the oldest waiting entry is the least of their numbers, and there is none exactly when nothing waits |
| QueueStore.LastSucceededIsGreatest | src/framecontrol/services/queue_resume.py:225-228 | in rows in run order the last succeeded run is the succeeded one of the greatest number |
| QueueStore.ARunsEndIsRecorded | src/framecontrol/state/recorder.py:156-161 | a run's end is recorded on its own row as it ended, and nothing else of any execution changes |
| QueueStore.TheSweepIsExact | src/framecontrol/services/queue_recovery.py:17-23 | the sweep leaves nothing running: a running execution and its running run read interrupted, all else stands |
| QueueRecovery.Recovery.RecoverQueue | src/framecontrol/services/queue_recovery.py:17-39 | the sweep and the loop over running rows make the recovered store |
| QueueRecovery.RecoveryIsExact | src/framecontrol/services/queue_recovery.py:26-39 | no row is left running; one is requeued exactly when it has no execution row and otherwise shows its execution; every other entry stands |
| QueueRecovery.RecoveringTwiceIsOnce | src/framecontrol/services/queue_recovery.py:17-23 | recovering twice is recovering once |
| QueueRecovery.RecoveryMayCrash | src/framecontrol/services/queue_recovery.py:17-23 | a crash between recovery's own transactions is recovered to the same store |
| ResumeChain.WalkChain | src/framecontrol/services/resume_chain.py:21-33 | the loop makes the walk: each link's execution until one with a succeeded run, the first entry, or something gone |
| ResumeChain.WalkersAgree | src/framecontrol/services/history_delete.py:91-120 | a resume and a deletion walk a finished entry's chain alike |
| ResumeChain.ResumeReadsNoMore | src/framecontrol/services/history_delete.py:91-109 | of an active entry's chain a resume reads nothing the deletion's walk does not |
| ResumeChain.CountAgreesWithResume | src/framecontrol/services/history_delete.py:71-88 | the deletion counts as resumable exactly the entries a resume would accept, and ends at the same execution |
| ResumeChain.UnreadDeletionChangesNothing | src/framecontrol/services/history_delete.py:49-63 | deleting what a walk does not read leaves it as it is |
| ResumeChain.ReadDeletionBreaks | src/framecontrol/services/queue_resume.py:238-249 | deleting what a resume's walk reads makes it refuse |
| ResumeChain.DeletionEndsExactlyWhatItReads | src/framecontrol/services/history_delete.py:71-88 | an entry that could be resumed still can exactly when its chain reads nothing deleted |
| HistoryDelete.InUseMap | src/framecontrol/services/history_delete.py:49-63 | the executions in use, each with the oldest entry that uses it |
| HistoryDelete.EndedMap | src/framecontrol/services/history_delete.py:71-88 | for each deleted execution exactly the resumable entries whose chain reads it |
| HistoryDelete.History.DeleteExecutions | src/framecontrol/services/history_delete.py:36-46 | deletes exactly what exists, has ended and is in no use, reports the rest, and changes nothing on a dry run |
| HistoryDelete.ActiveChainsSurvive | src/framecontrol/services/history_delete.py:49-63 | every waiting or running entry walks its chain as before an accepted deletion, whoever walks |
| HistoryDelete.EndedIsExact | src/framecontrol/services/history_delete.py:71-88 | the entries listed are exactly those a resume accepted before and refuses after |
| HistoryDelete.DeletionMakesNothingResumable | src/framecontrol/services/history_delete.py:71-88 | no deletion makes an entry resumable |
| HistoryDelete.DeletableExactlyWhen | src/framecontrol/services/history_delete.py:49-63 | an execution can be deleted exactly when it is there, has ended, and no waiting or running entry is bound to it |
| HistoryDelete.AnIdleQueueKeepsNothing | src/framecontrol/services/history_delete.py:36-46 | with nothing waiting or running every ended execution asked for is deleted |
| ChainHistory.ChainIsConsecutive | src/framecontrol/services/queue_resume.py:54-85 | the succeeded runs along a chain are 1 to k, and what an entry's state says of k |
| ChainHistory.RecordedRunsAreTheLedgers | src/framecontrol/state/recorder.py:156-161 | while an execution's rows are there their succeeded numbers are those noted for its entry |
| ChainHistory.WalkEndsAtTheLast | src/framecontrol/services/resume_chain.py:21-33 | a whole walk ends at the chain's last succeeded run or finds there is none, whatever older rows are gone |
| ChainHistory.ResolveIsTheNextRun | src/framecontrol/services/queue_resume.py:213-235 | what a resume resolves to, or why it is refused, from the chain's history |
| ChainHistory.SubmittingKeeps | src/framecontrol/services/queue_resume.py:88-110 | a submission, or a resume of a finished entry not resumed before, keeps all chains |
| ChainHistory.FinishingARunKeeps | src/framecontrol/state/recorder.py:160-161 | recording a run's end, by its number, keeps all chains and notes it exactly when it succeeded |
| ChainHistory.UnlinkingKeeps | src/framecontrol/state/queue.py:312-342 | requeueing, or failing with the link cleared, keeps all chains for an entry of which nothing ran |
| ChainHistory.DeletingKeeps | src/framecontrol/state/executions.py:201-230 | an accepted deletion keeps all chains, and never takes a running entry's row |
| ChainSteps.MovesKeepPosition | src/framecontrol/jobs/executor.py:359-428 | every move keeps the place in the loop in step with the runs made, and what an end shows of the token |
| ChainExecutor.PathsKeepPosition | src/framecontrol/jobs/executor.py:359-428 | so does every path, whatever others ask in between |
| ChainExecutor.EveryEnd | src/framecontrol/jobs/executor.py:347-428 | succeeded exactly when every run to the total did and nothing raised, parked only at a boundary after a run of its own and before the last, interrupted only by a stop; run numbers consecutive from the first |
| ChainExecutor.RunRuns | src/framecontrol/jobs/executor.py:347-428 | what is told of an execution is what its laps decide, one JobFinished last; it goes a path the steps allow, and before every run but the first it waited the whole cooldown after the one before, but for the one window |
| ChainExecutor.RunLap | src/framecontrol/jobs/executor.py:375-421 | one turn of the loop tells its run's events and leaves the job where its lap decides |
| LapDecisions.SmoothLapsSucceed | src/framecontrol/jobs/executor.py:375-423 | with nothing asked and every run prepared, succeeded and handed on, the events are those of all runs and then JobFinished succeeded with all of them |
| LapDecisions.TheFirstCauseDecides | src/framecontrol/jobs/executor.py:375-418 | after k smooth runs the next lap's first cause decides status and count: a stop or a park before its run, no preparation, an error, a failure, a time limit, an interruption by a stop or without one, no handoff, a park after it |
| LapDecisions.TheCutCooldownDecides | src/framecontrol/jobs/executor.py:666-688 | a cooldown cut by a stop ends the job interrupted, one cut by a park ends it parked, its run made |
| LapDecisions.WhyALapEnds | src/framecontrol/jobs/executor.py:375-421 | whatever is asked, the only reasons a lap has for each status a job can end with, and for going on |
| LapDecisions.TheLapReachedDecides | src/framecontrol/jobs/executor.py:375-427 | the first lap that does not go on decides the job's end and the runs it made |
| LapDecisions.SomeLapEndsIt | src/framecontrol/jobs/executor.py:375-423 | there is always one |
| ChainExecutor.CheckTop | src/framecontrol/jobs/executor.py:376-390 | before a run: a stop, then a park only after a run of its own, then the handoff |
| ChainExecutor.RunStep | src/framecontrol/jobs/executor.py:391-406 | a run's events, one that raised told as failed, and where each of its ends leads |
| ChainExecutor.AtRunsEnd | src/framecontrol/jobs/executor.py:407-414 | after a run a stop that landed first wins over a park, and the count is read before both |
| ChainExecutor.CoolDown | src/framecontrol/jobs/executor.py:656-688 | the loop waits what the cooldown's specification says, parking exactly when it does |
| ChainExecutor.AfterRun | src/framecontrol/jobs/executor.py:407-421 | a job that goes on with no stop asked has waited its whole cooldown, but for the one window |
| ChainExecutor.TheWholeCooldownIsWaited | src/framecontrol/jobs/executor.py:666-678 | however parks come and go, a cooldown ends whole, parked or stopped, unless a park was pending at a second read of the count |
| ChainExecutor.ShortExactlyFromAPendingRead | src/framecontrol/jobs/executor.py:675-678 | from such a read it can end short if and only if a park is pending at it |
| ChainExecutor.AJobMayGoOnShort | src/framecontrol/jobs/executor.py:671-678 | a concrete ten-second cooldown of which four are waited |
| ChainExecutor.CooldownsNeverOverrun | src/framecontrol/jobs/executor.py:666-678 | however often it is cut, a cooldown never takes longer than its wait |
| ResumedTail.Perform | src/framecontrol/jobs/executor.py:375-406 | the loop gives each run, field by field, its own pair, its own seed or the execution's, what the run before left, prepared anew across a backend or profile boundary, or nothing, and whether a segment has begun |
| ResumedTail.RunsAreGivenTheirOwn | src/framecontrol/jobs/planning.py:127-133 | the same of what any chain gives each of its runs |
| ResumedTail.AResumedTailIsTheTail | src/framecontrol/jobs/executor.py:359-374 | a resume after any run gives each remaining one the number, pair, input, seed and segment flag of the uninterrupted chain |
| ResumedTail.ResumesGiveTheSameRuns | src/framecontrol/services/queue_resume.py:213-235 | so does a chain cut and resumed any number of times |
| ResumedTail.TheRecordDecidesTheNextRun | src/framecontrol/services/queue_resume.py:232-235 | whatever was recorded, the segment flag is kept, and the next run is given the same exactly when it reads the record as it would the planned file |
| ResumedTail.TheRecordDecidesTheTail | src/framecontrol/services/queue_resume.py:232-235 | whatever was recorded, all the runs left are given the same exactly when the next one reads nothing, the cut run's handoff was recorded just if it was planned, or the next run would read handoff and output alike |
| ResumedTail.ResumeMeasuresAlike | src/framecontrol/jobs/executor.py:555-568 | for every cut and every run left, it is measured against the same image exactly when no segment started by it, the last one started at the cut or after it, or the run that started it and the cut run left the same image |
| ResumedTail.AResumeMayMeasureAnother | src/framecontrol/jobs/executor.py:555-568 | a concrete job and cut where the image differs |
| EventBacklog.Backlog.Append | src/framecontrol/server/event_backlog.py:39-45 | the window stays the newest part of the log, IDs contiguous |
| EventBacklog.Backlog.Since | src/framecontrol/server/event_backlog.py:47-60 | the window answers what the whole log would, or says reset |
| EventBacklog.Backlog.LatestId | src/framecontrol/server/event_backlog.py:67-69 | the log's latest ID, with nothing kept too |
| EventBacklog.ResetExactlyWhenSomethingIsLost | src/framecontrol/server/event_backlog.py:54-60 | reset is said exactly when some event the client needs is out of reach |
| EventBacklog.WatchIsGapFree | src/framecontrol/server/grpc_service.py:33-54 | under any interleaving what was delivered since the start or the last reset is the log from the baseline to the last handled ID, once each, filtered; otherwise a reset is owed, its baseline read first, and what was delivered until then is gap free too, or nothing |
| EventBacklog.TheClientMissesNothing | src/framecontrol/server/grpc_service.py:39-54 | until a reset a client has been sent exactly the events it wants above the ID it asked to go on from, or above the latest there was at the start if that is less or it asked for none, up to the last handled; an ID of an earlier run is answered with a reset |
| EventBacklog.AResetMissesNothing | src/framecontrol/server/grpc_service.py:44-49 | after a reset it has been sent exactly those above the latest ID read before the reset went out |
| EventBacklog.ReplayCatchesUp | src/framecontrol/server/grpc_service.py:50-54 | one answer handled to its end brings the client level with the log |
| EventBacklog.ZeroIsNeverReplayed | src/framecontrol/server/event_backlog.py:51-53 | a loop at 0 is never answered, and starts there exactly when the next ID is 1 |
| KnobRing.UpdateRing | src/framecontrol/services/knob_updater.py:139-167 | the loops make the updated ring, and count the runs added |
| KnobRing.UpdateRefines | src/framecontrol/services/knob_updater.py:139-167 | one update keeps each group's ring the newest suffix of its whole record, counts and marks the record's |
| KnobRing.RingRefinesRecord | src/framecontrol/services/knob_updater.py:117-167 | over any updates, failed ones too, each accepted run is counted once though trimmed, and each ring is its newest runs in rising order |
| KnobRing.FreshIsNewer | src/framecontrol/services/knob_updater.py:145-152 | the bounded form takes a run exactly when it is newer than all its group's record |
| KnobRing.AnOldRunIsNotAdded | src/framecontrol/services/knob_updater.py:147-153 | a run the ring holds, or cannot take, or not after its group's mark, is not added, whatever the ring |
| KnobRing.RepeatingAddsNone | src/framecontrol/services/knob_updater.py:147-158 | repeating an update adds no run, however many were trimmed |
| KnobRing.EveryNewRunIsCounted | src/framecontrol/services/knob_updater.py:145-158 | a run in order is accepted exactly when it is newer than its group's mark |
| KnobRing.LookAtGroups | src/framecontrol/services/knob_updater.py:172-190 | one update looks once at each group in the ring, moves its processed count unless suspended, and crosses what lies between |
| KnobRing.CheckpointsCrossedOnce | src/framecontrol/services/knob_updater.py:172-190 | over any updates, failed and suspended ones included, the checkpoints crossed by those that committed are those up to the group's processed count, each once, in order |
| KnobRing.ACrossingIsFinalOnceCommitted | src/framecontrol/services/knob_updater.py:183-245 | a checkpoint crossed by an update that committed is crossed by no later one; one crossed by an update that failed is crossed again by its next try |
| KnobRing.CheckpointsReachTheRecord | src/framecontrol/services/knob_updater.py:172-190 | after a commit that did not find the group suspended they are those its whole record of accepted runs has reached |
| KnobRing.ASuspendedGroupWaits | src/framecontrol/services/knob_updater.py:179-182 | a suspended group keeps its count and crosses nothing |
| TextWalk.CheckTextValues | src/framecontrol/jobs/parsing.py:351-379 | the explicit stack ends on every finite graph, expands no container twice, and accepts exactly when no reachable text holds NUL and no cycle is reachable |
| TextWalk.RecursiveVerdict | src/framecontrol/core/yaml_files.py:138-151 | the recursive check refuses exactly when a cycle is reachable |
| TextWalk.CompareVerdicts | src/framecontrol/jobs/parsing.py:351-379 | where no text reached holds NUL the two checks agree about cycles, and on every graph the recursive one refuses what the walk refuses as a cycle |
| TextWalk.ChildrenAreAll | src/framecontrol/jobs/parsing.py:351-379 | the walk's children of a container are all it holds, a mapping's keys with its values |
| Cooldowns.PoliciesRoundTrip | src/framecontrol/core/cooldown.py:76-111 | a policy can be read from some mapping exactly when it is within its bounds |
| Cooldowns.AutoIsReadExactly | src/framecontrol/core/cooldown.py:76-111 | exactly which mappings are an automatic policy, and which one, defaults included |
| Cooldowns.OthersAreReadExactly | src/framecontrol/core/cooldown.py:76-111 | exactly which are a fixed wait, and which are none |
| Cooldowns.AWaitIsExactly | src/framecontrol/core/cooldown.py:43-55 | a fixed wait is its seconds; an automatic one is the share in whole seconds brought within its bounds, and says which bound it was brought to |
| Cooldowns.WaitsAreBounded | src/framecontrol/core/cooldown.py:43-55 | a wait is within the hour and its clamps, and otherwise the share asked for, rounded up by less than a second |
| Cooldowns.WaitsAreMonotone | src/framecontrol/core/cooldown.py:43-55 | a longer run is never followed by a shorter wait |
| Cooldowns.CrossedBoundsAreNotMonotone | src/framecontrol/core/cooldown.py:109-110 | for every pair of crossed bounds, none negative, it would be for two run times, so their refusal is needed |
| Admission.WorstCaseIsWorst | src/framecontrol/services/api_rules.py:26-53 | both forms of the bound, version 1's product and version 2's sums, are the runs' own worst case |
| Admission.NothingExceedsTheWorst | src/framecontrol/services/api_rules.py:26-46 | no execution within its timeouts and budgets takes longer, as far as it gets |
| Admission.AdmissionIsExact | src/framecontrol/services/api_rules.py:26-46 | within the other limits a job or a resume's tail is accepted exactly when no such execution can pass the time limit |
| Admission.VerdictsAreExact | src/framecontrol/services/api_rules.py:15-46 | each verdict exactly: the first limit passed, in order, and accepted when all are met |
| Admission.ATailIsTheLastRuns | src/framecontrol/services/api_rules.py:33-34 | a resume's runs are the last it has left |
| ForecastFloor.ForecastPublisher.Observe | src/framecontrol/services/forecast_publisher.py:103-130 | what an event changes, and whether a forecast goes out |
| ForecastFloor.ForecastPublisher.ChangePark | src/framecontrol/services/forecast_publisher.py:81-95 | a park's forecast goes out at once |
| ForecastFloor.ForecastPublisher.Send | src/framecontrol/services/forecast_publisher.py:150-169 | a forecast goes out with both floors held |
| ForecastFloor.ProgressRises | src/framecontrol/services/forecast_view.py:24-31 | under one span the share shown only rises, within 0 and 1, a span of no length included |
| ForecastFloor.AShareIsExactly | src/framecontrol/services/forecast_publisher.py:163-164 | a span's own share of its time, none of one with no length |
| ForecastFloor.WhatIsShownIsExactly | src/framecontrol/services/forecast_view.py:24-31 | a bar shows the larger of that share and its floor |
| ForecastFloor.ANewSpanShowsNoLess | src/framecontrol/services/forecast_publisher.py:158-169 | a new span of the same start shows no less than the one before by then, wherever its end went |
| ForecastFloor.BarsInARowNeverGoBack | src/framecontrol/services/forecast_publisher.py:158-169 | through any events and parks read in time order, of two forecasts in a row with one start the later never shows less, the run's within one run, and all shares are within 0 and 1 |
| ForecastFloor.ABarGoesBackExactlyWhen | src/framecontrol/services/forecast_publisher.py:150-169 | through the same, of any forecast that carries a bar and the next that does in one life of it, over a gap or with another start too, the floor never falls, and the bar never goes back if and only if the later catches the earlier |
| ForecastFloor.BarsNeverGoBack | src/framecontrol/services/forecast_publisher.py:7-9 | so the job's bar in the whole job, and a run's within it, never goes back between any two forecasts if and only if each catches the one that carried it before |
| ForecastFloor.ANewBarStartsAtItsShare | src/framecontrol/services/forecast_publisher.py:108-110 | the first forecast to carry a bar, a new run's too, holds just its own share |
| ForecastFloor.AForecastGoesOutExactlyWhen | src/framecontrol/services/forecast_publisher.py:103-148 | on which events a forecast is sent, and when the next reading may be |
| ForecastFloor.ReadingsDoNotFlood | src/framecontrol/services/forecast_publisher.py:119-125 | however fast a counter counts its forecasts keep the interval apart, but for a stage's last |
| ForecastFloor.AParkIsShownAtOnce | src/framecontrol/services/forecast_publisher.py:81-95 | a park reserved or withdrawn is always sent |
| ForecastFloor.AGapMayGoBack | src/framecontrol/jobs/timing/forecast.py:457-491 | fed from the start, a job whose second run has no history, parked, unparked and parked in its first, shows 0.8 and then 0.09 |
| ForecastFloor.AParkMayGoBack | src/framecontrol/jobs/timing/forecast.py:457-491 | fed from the start, a job parked in its second run shows 0.7 and at once 0.5 |
| RunSelection.Resolve | src/framecontrol/jobs/compile_v2.py:342-350 | the loop over a run's own knobs overrides the defaults', a temporal one of its own replacing whichever they had |
| RunSelection.SelectionsAreSound | src/framecontrol/jobs/compile_v2.py:316-361 | a selected run has every knob it needs, each applies to its backend and pipeline, and never both seconds and frames |
| RunSelection.SourcesTellTheTruth | src/framecontrol/jobs/compile_v2.py:342-350 | which knobs it has, from where, and what its sources say of them |
| RunSelection.DefaultsAreChecked | src/framecontrol/jobs/compile_v2.py:238-259 | every accepted defaults block passed its checks under its own selector |
| RunSelection.DefaultsHoldEach | src/framecontrol/jobs/compile_v2.py:251-258 | no block is lost or replaced by another |
| RunSelection.EverySelectionIsSound | src/framecontrol/jobs/compile_v2.py:116-126 | so every run of an accepted job is sound, numbered by its place |
| RunSelection.AcceptedJobsUseEverything | src/framecontrol/jobs/compile_v2.py:363-395 | told of what the file's runs and blocks write: a job is accepted exactly when its blocks pass, each run can be selected, every block and catalog entry is chosen by some run, and every setting only some pipelines use by a run of one of those |
| RunSelection.DefaultsAreTheBlocks | src/framecontrol/jobs/compile_v2.py:238-259 | the blocks are accepted exactly when each passes its checks and no two have one selector |
| RunSelection.KnobsAreCheckedExactly | src/framecontrol/jobs/compile_v2.py:274-314 | the knobs there are, the runs each applies to and the values it may take |
| RunSelection.ARunIsSelectedExactly | src/framecontrol/jobs/compile_v2.py:316-361 | a run is selected exactly when its pipeline is one, what it names is there, its knobs pass, and it or its block names what is required |
| RunSelection.ABlockIsAcceptedExactly | src/framecontrol/jobs/compile_v2.py:238-272 | a block exactly when the first three are so |
| RunCompiler.RunCompiler.CompileRun | src/framecontrol/jobs/compile_v2.py:430-449 | with the cache a run compiles exactly as it would afresh |
| RunCompiler.RunCompiler.ResolveRuns | src/framecontrol/jobs/compile_v2.py:422-428 | so does a whole job, each run handing its view on, and it is refused exactly when compiling afresh is |
| RunCompiler.OneKeyOneView | src/framecontrol/jobs/compile_v2.py:440-447 | selected runs filed under one key are built one view, whether the job wrote a duration as an integer or a decimal |
| RunCompiler.NormalisedAlike | src/framecontrol/jobs/compile_v2.py:494-534 | knobs that passed their checks and compare as equal give the adapters one request, since durations are made decimals and every other knob has one form |
| RunCompiler.KeysAreSharedExactly | src/framecontrol/jobs/compile_v2.py:440 | runs share a key exactly when their names, knobs as they compare, image and its size agree |
| RunCompiler.OneKeyTwoForms | src/framecontrol/jobs/compile_v2.py:440-447 | two different selected runs do share a key |
| RunCompiler.NormalisedExactly | src/framecontrol/jobs/parsing.py:476-479 | a request is the one-run job with its durations as decimals, refused exactly for one that is not positive |
| RunCompiler.WhatARunIsBuiltFrom | src/framecontrol/jobs/compile_v2.py:430-438 | the one-run job's image is the handoff of the run before, the job's, or none; its knobs the run's own and derived |
| RunCompiler.HandoffNamesDiffer | src/framecontrol/jobs/compile_v2.py:436 | each run's handoff has a name of its own, so no key takes one for another |
| RunCompiler.EachRunHandsItsViewOn | src/framecontrol/jobs/compile_v2.py:422-428 | each run of a compiled job is compiled with the view of the one before |
| RunCompiler.WhatIsDerived | src/framecontrol/jobs/compile_v2.py:451-485 | what a duration derives, and when it cannot be resolved, by backend, pipeline and profile |
| RunCompiler.FramesAreNearest | src/framecontrol/jobs/compile_v2.py:456-457 | a count of frames is the nearest to the seconds at the rate |
| RunCompiler.DerivedComparesAlike | src/framecontrol/jobs/compile_v2.py:451-485 | what a duration derives compares alike for runs that do |
| RunCompiler.DerivationOnlyAdds | src/framecontrol/jobs/compile_v2.py:451-485 | deriving keeps every resolved knob and its source, and names a source for each it adds |
| RunCompiler.EffectiveFramesIsNearest | src/framecontrol/jobs/backends/h3.py:208-212 | the frame count chosen is on the grid of 17 n + 5, and none on it is nearer |

## Left out

- One-off generation entries: they share the claim, the token and the final sections with a job and have no chain.
- The between-jobs wait, its polling and the idle wait: only whether the next claim skips it is kept.
- The forecast that a park, an unpark or a cancel publishes or drops: `ForecastFloor` takes such calls as they come.
- The machine's requests come without their caller's permission check, so its theorems hold of more than the server allows.
- Retention's pruning of executions and entries, which the server opens its stores without or does before a run.
- Whether a waiting resume's input file is still there when it runs: no deletion takes its rows, and files are not modelled.
- An observer, log or store that fails, but for the hold's own row; so is a job whose recording stopped half way.
- Runs, their finishing and their files: a run is an outcome, and what it makes a function of what it was given.
- File and image checks of a resume's input, the recorded seed and the executable's fingerprint: a resume here resolves
  by the rows alone.
- Version 1's prompt pair assignment and the parsing of a version-2 file's shape, names and settings: a run is given as
  its fields.
- The handoff size check between two runs.
- ResumedTail.AResumedTailIsTheTail: rests on each succeeded run having recorded the handoff it planned, and no other;
  TheRecordDecidesTheTail says exactly what follows without that.
- EventBacklog.WatchIsGapFree: for a first ID of at least 2, as a clock in milliseconds gives.
- KnobRing.RingRefinesRecord: for a ring of one fixed size, from an empty ring, and runs whose execution and number name one group.
- KnobRing.CheckpointsReachTheRecord: for a ring of at least one run, as its allowed sizes are; what a crossing fits is left out.
- The rest of the knob update: fits, gates, the tunables search and the files; the forecaster itself.
- Waiting for more events, and the watch of one entry: transport around the loop modelled here.
- Rounding of recorded seconds to a tenth, binary floating point and the decimal context: exact rationals instead.
- Wall-clock text, log lines and messages: only which branch refuses.
- HTTP, gRPC, the command line, child processes, signals, sockets and file locks.
