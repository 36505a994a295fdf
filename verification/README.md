# Anklet

Anklet schedules GitHub Actions jobs onto macOS hosts. A receiver turns `workflow_job` webhooks into entries of Redis
lists; any number of handlers on any number of hosts claim those entries, start one VM for each job, and then clean
up, retry the job or hand it to another host. This project models the parts of Anklet that have to be right for no job
to be lost, run twice or retried for ever, and proves that they are, or exactly when they are.

| files | what they model |
|---|---|
| QueueJobs, JobQueue | the list entries, the Redis list commands, and the lookups, pops and guarded updates on them |
| GuardedUpdate | the guarded update of a queue entry by any number of writers at once |
| Cleanup, CleanupSteps | the cleanup loop as a method, and its refinement by the commands of the state machine |
| Protocol, HandlerInvariant, Conservation | one handler as a state machine over Redis commands; what each step keeps and conserves |
| Runs, Guarantees, ReachableStates, EventLists, CompletedJobs, LeftEntries | whole runs of any number of handlers and webhook deliveries, and what holds over all of them |
| Schedules | concrete runs that lose, duplicate or leave behind a job |
| Receiver | the webhook branches, command by command, against the deliveries of the state machine |
| HandlerEffects | which steps of a handler change which list, and how |
| PausedSearch | the search of the paused list for a job to take over, and the advertisements it loses |
| PausedHandoff | the handover of a paused job with every lookup and every write a step of its own |
| Sweep | the queue target index of a handler that cannot run the jobs it claims |
| TemplateTracking, TemplateSpace, TemplatePull | the template cache: eviction order, making room, pulling |
| RateBudget, RedeliveryWalk | the share of GitHub's rate limit, and the walk over failed deliveries that spends it |
| Retry | repeated attempts at a Redis command, nested |
| Metrics | the run counters of host and plugins |

A list entry is a datatype value; two entries are equal when their JSON text is, so LREM is removal of an equal value.
A Redis list that does not exist is the empty list. In the state machine each Redis command is a step, except where
"Left out" says otherwise. What GitHub, the Anka CLI and the disk answer are inputs; the clock and cancellation are
nondeterministic. Loops that wait are given a finite script of answers of any length.

## Findings

Where the code does not keep what it is for, the exact condition is proved instead:

- A job is lost when the context of the plugin is canceled, by a shutdown or by an error of another plugin, while the
  job is in hand: off one list and not yet on the next. The LREM of a claim (internal/github/queue.go:176) may be
  applied and still be reported as canceled, and the pushes after it (plugins/handlers/github/github.go:1760, 1773) are
  refused without being tried. A job enqueued once, not doubled and not dropped is in the system if and only if no
  cancellation fell on it in hand (`Guarantees.NeverLostIff`; a run that loses it is `Schedules.ShutdownLosesTheClaimedJob`).
- A repeated queued event enqueues a job a second time if and only if all its copies are in hand at that moment
  (`ReachableStates.SecondCopyIff`, `Schedules.RedeliveryInThatMomentDuplicates`).
- A paused job can end with two owners: a take ignores the removed count of LREM
  (plugins/handlers/github/github.go:1682), and a resume ignores that its update found nothing. It has one owner if and
  only if no write was made on a stale lookup (`PausedHandoff.OwnersOfPausedJob`, with three schedules that fail).
- The search for a paused job loses advertisements. Each pop shortens the list while the index moves on, and only the
  last one popped is put back: of two or more, every one passed at an even position (from 0) is gone
  (`PausedSearch.AdvertisementIsLostIff`); one whose job has been resumed is put back once for every turn of the loop;
  and one whose job is gone is not removed where it is alone, since the LREM for it comes after it was popped
  (`PausedSearch.SearchOutcome`). The jobs stay with the hosts that paused them, which may still resume them.
- A completed job can become uncompleted when writers overlap, since `UpdateJobInDB` reads its guard before it writes:
  if and only if a writer past its guard before the completion writes after it (`GuardedUpdate.CompletionStaysIff`).
  The write goes to the index found before: if entries have been removed meanwhile, taken by itself the function can
  overwrite the entry of another job (`GuardedUpdate.StaleIndexReplacesAnotherJob`).
- Cleanup gives up when its LREM of a completed event removes nothing (plugins/handlers/github/github.go:1154-1161): the
  completed job stays in the cleaning list, outside any cleanup, if and only if another step removed the event since
  cleanup looked it up (`LeftEntries.TidyThroughoutIff`, `LeftEntries.GivesUpIff`; a run is
  `Schedules.PurgedEventLeavesTheJob`). The next job's cleanup then drops that entry and stops, leaving its own VMs and
  job where they are (`Cleanup.LeftEntryShieldsTheNextJob`).
- Two deliveries of the same event handled at once both push (`EventLists.ConcurrentDeliveriesPushTwice`).
- The space test adds sizes in 64 bits and refuses wrongly if and only if the sum wraps to less than the download
  (`TemplateSpace.WronglyRefusedIff`). The count it reduces for a tracked target, which alone could refuse although
  there is room (`TemplateSpace.RefusedDespiteRoomIff`), never does through its only caller (`TemplatePull.RoomIsMade`).
- A pull that fails for any reason is reported as a missing tag, because the pull returns no answer together with its
  error (internal/anka/cli.go:1065-1071), and a canceled pull as success (`TemplatePull.EnsureVMTemplateExists`). A
  failed pull of an untracked template leaves it tracked with size 0 and no uses.
- A redelivery that needs three calls waits through every window that opens with fewer than six calls left
  (`RateBudget.NeverSettledIff`), and asks again for queued deliveries whose job is still queued
  (`RedeliveryWalk.RequestedIff`). The log line after a request dereferences the redelivery flag, which the filter lets
  be absent (plugins/receivers/github/redeliver.go:288).
- Latent only, since no context with a deadline reaches a Redis operation today: a deadline, there to fail faster, would
  add a retry where none is configured (`Retry.DeadlineAddsRetriesIff`).
- `SetTemplateInUse` (internal/config/config.go:703) has no caller, so no template is ever in use; the check for a VM
  entry at plugins/handlers/github/github.go:1537 compares the action, which a VM entry does not carry, and never fires.

## Model

| member | source | states |
|---|---|---|
| QueueJobs.LRemMultiset | internal/github/queue.go:167-180 | LREM with count 1 removes exactly one equal entry, or nothing when there is none |
| QueueJobs.LRemSplits | internal/github/queue.go:167-180 | it is the first one, and the rest keeps its order |
| QueueJobs.LRangeIs | internal/github/queue.go:152-166 | LRANGE from a start, also one counted from the end or beyond it |
| QueueJobs.RemoveKeepsDistinct | internal/github/queue.go:92-135 | removing an entry from a list with one entry per id leaves one entry per id, adds no id, and takes the removed id away altogether |
| JobQueue.PopJobOffQueue | internal/github/queue.go:152-184 | for any commands of other clients between its LRANGE and its LREM, and a cancellation before the removal or after it was applied: the popper gets the entry it saw or nothing; list, popped entry and entry lost to the cancellation are together what the list held |
| JobQueue.GetJobFromQueueByID | internal/github/queue.go:24-61 | returns the first entry with the id, and nothing exactly when there is none |
| JobQueue.DeleteFromQueueAmid | internal/github/queue.go:92-135 | removes one entry equal to the first it saw with the id, whatever other clients did since, and touches no other list |
| JobQueue.DeleteFromQueue | internal/github/queue.go:92-135 | alone, removes the first entry with the id |
| JobQueue.CheckIfJobIsCompleted | internal/github/database.go:97-117 | reports the head of the list, and whether it is completed |
| JobQueue.UpdateJobInDB | internal/github/database.go:12-94 | with other clients acting after it has read the head and after it has read the list: overwrites by index what was the first entry of the same type, job id and run id, unless the list was empty or its head completed when first read; alone, exactly that entry |
| JobQueue.UpdateKeepsIdentities | internal/github/database.go:64-91 | an update changes at most one entry and never its type or ids, so a VM entry sharing the job id is never overwritten by its job |
| JobQueue.UpdateTakesEffectIff | internal/github/database.go:18-91 | an update takes effect if and only if the head is not completed and an entry of that type, job id and run id is in the list; it is refused as completed if and only if the head is |
| JobQueue.CompletedIsAbsorbing | internal/github/database.go:18-55 | once any update in a series left the head completed, no later update of any job changes the list |
| GuardedUpdate.AloneIsUpdateList | internal/github/database.go:12-94 | the three commands of an update, alone, are the whole update |
| GuardedUpdate.UpdateIsThreeSteps | internal/github/database.go:12-94 | the method with other clients in its gaps is those three commands on the lists they leave |
| GuardedUpdate.CompletionStaysIff | internal/github/database.go:18-91 | under every interleaving of any number of writers with appends, LREM, RPOPLPUSH and deletion of the list, a completed job at the head stays there completed until it is taken away, if and only if before that no write at the head is executed by a writer that had passed its guard before the completion and writes anything but that job completed |
| GuardedUpdate.CompletionIsSafeIff | internal/github/database.go:18-91 | it stays so in all such continuations if and only if at the completion there is no such writer |
| GuardedUpdate.LateWhileGrowing | internal/github/database.go:57-79 | as long as nothing is removed, a writer that can undo a completion carries the very job at the head, not completed: an index found earlier still is the index of its job |
| GuardedUpdate.StaleIndexReplacesAnotherJob | internal/github/database.go:57-79 | with a removal between its LRANGE and its LSET, an update puts its removed job in place of another one |
| GuardedUpdate.TwoWritersCanUndoCompletion | internal/github/database.go:18-91 | a concrete interleaving of two updates that undoes a completion, which the same two updates one after the other do not |
| Cleanup.Cleanup | plugins/handlers/github/github.go:937-1262 | the loop terminates (twice the plugin queue plus the cleaning list falls in every turn) and leaves the lists and the VM deletions the specification gives, for all lists, statuses and signals |
| Cleanup.NextEntry | plugins/handlers/github/github.go:1054-1084 | takes the head of the cleaning list, or moves the tail of the plugin queue there first, or finds nothing |
| Cleanup.CleanEntries | plugins/handlers/github/github.go:1046-1262 | deletes VM after VM until an entry that is none, then settles it |
| Cleanup.SettlePayload | plugins/handlers/github/github.go:1126-1256 | what becomes of a job entry: purged, left where it is when its completed event is removed by others between lookup and LREM, dropped, returned with its attempts or kept, in the order of the branches |
| Cleanup.DrainVMs | plugins/handlers/github/github.go:1054-1125 | from one job followed by VM entries the loop deletes every VM, the newest first, before the job moves |
| Cleanup.CleanupSettlesJob | plugins/handlers/github/github.go:1046-1262 | total effect of the final cleanup on a job that does not run and its VMs, list by list: all VMs deleted newest first, and the job purged, left in the cleaning list, given up, at the head of the main queue with one attempt more unless exempt, dropped, or alone in the plugin queue, exactly by status, return reason and whether its event was taken |
| Cleanup.CleanupLeavesAlone | plugins/handlers/github/github.go:1005-1044 | what stops a cleanup before its loop: nothing in the plugin queue, a job another host has taken (only its advertisement goes), a job that runs or in a shutdown is about to; then nothing else changes and no VM is deleted |
| Cleanup.OnStartTakesNothing | plugins/handlers/github/github.go:1054-1070 | the cleanup at the start of a run takes nothing from the plugin queue: with the cleaning list empty it changes nothing; a VM left there is the only one deleted; a job left there is settled in front of what the plugin queue holds |
| Cleanup.UnknownEntryStops | plugins/handlers/github/github.go:1257-1261 | an entry of an unknown type stops the cleanup, left in the cleaning list |
| Cleanup.CompletedIsPurgedIff | plugins/handlers/github/github.go:1046-1175 | a completed job never goes back to the main queue, whatever return reason is pending; its cleanup leaves its id in none of the five lists, except exactly when a shutdown finds its action in progress, or another client removes its completed event between the lookup and the LREM of cleanup |
| Cleanup.LeftEntryShieldsTheNextJob | plugins/handlers/github/github.go:1054-1261 | a job left in the cleaning list makes the cleanup of the next job drop the old entry and stop, with no VM deleted and the plugin queue as it was |
| Cleanup.CleanupIsIdempotent | plugins/handlers/github/github.go:1014-1262 | a second cleanup without a new signal deletes nothing and changes no list but in_progress |
| CleanupSteps.CleanProgress | plugins/handlers/github/github.go:1054-1262 | every single command of a cleanup brings it nearer its end |
| CleanupSteps.LoopAgrees | plugins/handlers/github/github.go:1054-1262 | the machine steps of the loop end where the loop of the method ends |
| CleanupSteps.StepsMatchMethod | plugins/handlers/github/github.go:937-1262 | the command-by-command cleanup of the state machine, at the start of a run or at its end, left alone, ends with exactly the lists the cleanup method leaves |
| HandlerEffects.OfMainQueue | plugins/handlers/github/github.go:1722-1770 | of all the steps of a handler exactly the claim, the push-back for another owner and the return by cleanup change the main queue: what each takes, and at which end it puts it |
| HandlerEffects.OfPausedList | plugins/handlers/github/github.go:1547-1721 | likewise for the paused list: popped, put back at the head, added by the pausing host unless there, removed by resume, cancellation and return |
| HandlerEffects.OfEventLists | plugins/handlers/github/github.go:694-870 | likewise for the in_progress and completed events: which step removes which event, and when |
| HandlerEffects.OfFinishedList | plugins/handlers/github/github.go:694-870 | likewise for the handler's own completed list: the claimed event, or the end GitHub reports, is put at its head |
| HandlerEffects.OfPluginQueue | plugins/handlers/github/github.go:1500-2500 | every change of the plugin queue is a push at the tail, a move by cleanup, or one guarded update with an entry of given action, status, conclusion and host |
| HandlerEffects.OfUpdates | plugins/handlers/github/github.go:1889-2470 | a run stops at an update when the head is completed, and prepares a job only when the update marking it found it; otherwise it goes on with what it wrote |
| HandlerEffects.OfSelection | plugins/handlers/github/github.go:1500-1777 | a run comes to a job only by its own queue, the main queue or a paused job, always the entry it looked at |
| HandlerEffects.OfOtherWork | plugins/handlers/github/github.go:1863-2500 | the moves of a run that write nothing: refresh of a retried job, waiting for a paused one until it is gone, noting a VM, watching |
| HandlerEffects.OfSignals | plugins/handlers/github/github.go:1154-1225 | the return reason is used up by the cleanup that returns a job, the message that another host took it by the next cleanup with something to clean up |
| HandlerEffects.OfCleanups | plugins/handlers/github/github.go:1446-1470 | no run works without the cleanup at its start, and none is over without the final one |
| HandlerEffects.CheckerRunsWhile | plugins/handlers/github/github.go:1400-1460 | the completion checker runs beside a run until its final cleanup |
| HandlerEffects.OfLookUp | plugins/handlers/github/github.go:1642-1680 | the lookup of a paused job goes on only with an entry still paused in the queue of the host the advertisement names |
| HandlerEffects.OfTake | plugins/handlers/github/github.go:1681-1690 | the take removes that entry there and has it in hand, found or not |
| PausedSearch.SearchPaused | plugins/handlers/github/github.go:1547-1721 | the loop over the paused list, its put-back and the deferred put-backs, against a function of the list |
| PausedSearch.SearchOutcome | plugins/handlers/github/github.go:1547-1721 | undisturbed, the search looks at every other advertisement, takes the first it can, gives up at the first resumed one and puts that back once per turn; with more than one, those it passes are removed for good |
| PausedSearch.AdvertisementIsLostIff | plugins/handlers/github/github.go:1547-1721 | an advertisement of a job not ended is lost, not taken, if and only if there is another one, it is at an even position, and the search ends after it |
| HandlerInvariant.HostKeepsView | plugins/handlers/github/github.go:937-2513 | every step of a handler keeps: one job then only its VMs in the plugin queue, a cleaning list of at most the entry in process, a local job that speaks of the stored one |
| Conservation.CleanConserves | plugins/handlers/github/github.go:1054-1262 | in cleanup, copies fall only where the job is dropped and attempts rise only with a non-exempt return |
| Conservation.HostConserves | plugins/handlers/github/github.go:937-2513 | every step of a handler keeps the balance of copies, and of attempts, against what was enqueued, dropped and retried |
| Runs.LookUpKeepsInv | plugins/handlers/github/github.go:1642-1680 | the lookup of a paused job and the check of its action keep the invariant of both hosts |
| Runs.TakeKeepsInv | plugins/handlers/github/github.go:1681-1690 | so does the LREM that takes it over, whether it finds the entry or not |
| Runs.StepKeepsInv | plugins/handlers/github/github.go:937-2513 | every step of any handler or delivery keeps the invariant of the whole system |
| Runs.StepKeepsBalance | plugins/handlers/github/github.go:937-2513 | and the balance of every job, over all main, plugin and cleaning lists and all hands, with what stale takes double and cancellations lose |
| Guarantees.RunKeepsInv | plugins/handlers/github/github.go:937-2513 | the invariant holds over every run |
| Guarantees.RunConserves | plugins/receivers/github/github.go:185-233 | over every run of any number of handlers and deliveries, with cancellations at any point and the lookup and the LREM of a take apart: copies of a job in all lists and hands, those dropped and those lost in hand are those enqueued and those doubled by stale takes; the attempts they carry are its non-exempt returns and what doubled copies brought |
| Guarantees.CopiesChange | plugins/handlers/github/github.go:1054-1262 | step by step: the number of copies of a job rises only at the RPUSH of the receiver or by a take on a stale lookup, and falls only in the terminal branches of cleanup or by a cancellation that falls on it in hand |
| Guarantees.OneOwner | plugins/handlers/github/github.go:1656-1777 | a job enqueued once and never taken over on a stale lookup is never with two handlers, nor with a handler and in the main queue |
| Guarantees.LedgerCounts | plugins/handlers/github/github.go:1656-1777 | the copies lost in a run are counted by its cancellations in hand, and the copies doubled by its takes on stale lookups |
| Guarantees.NeverLostIff | plugins/handlers/github/github.go:1656-1777 | a job is in the main queue or with a handler if and only if more copies were enqueued and doubled than dropped and canceled in hand; one with a single outstanding copy is lost if and only if a cancellation falls on it in hand |
| Schedules.ShutdownLosesTheClaimedJob | plugins/handlers/github/github.go:1732-1777 | a run from an empty Redis in which a shutdown between LREM and RPUSH loses the only copy of an undropped job |
| Schedules.RedeliveryInThatMomentDuplicates | plugins/receivers/github/github.go:185-233 | a run in which the same event delivered in that moment enqueues the job twice |
| Guarantees.DroppedJobsHaveEnded | plugins/handlers/github/github.go:1127-1246 | only completed, failed or timed out jobs are dropped |
| Guarantees.ClaimsAreExclusive | internal/github/queue.go:152-184 | with LRANGE and LREM as separate steps of any number of handlers: entries pushed to the main queue are, as multisets, those in it plus those claimed, so none is claimed twice |
| Guarantees.AttemptsCountReturns | plugins/handlers/github/github.go:1188-1217 | the attempts stored with a job enqueued once and not doubled are the number of its returns for non-exempt reasons over the whole run, in whichever list it is |
| ReachableStates.ListShapes | plugins/handlers/github/github.go:2310-2360 | in every reachable state a plugin queue is empty or one job followed by VM entries of its id and run; a cleaning list has at most one entry, only during cleanup unless it is a completed job left there |
| LeftEntries.StepTidyIff | plugins/handlers/github/github.go:1054-1175 | a step leaves a tidy cleaning list (empty but for the entry in process, a payload then in no other list) tidy if and only if it is not a cleanup giving up |
| LeftEntries.TidyThroughoutIff | plugins/handlers/github/github.go:1140-1161 | over every run the cleaning list of a handler stays tidy if and only if none of its cleanups gives up |
| LeftEntries.GivesUpIff | plugins/handlers/github/github.go:1140-1161 | a cleanup gives up if and only if a step between its lookup of the completed event and its LREM removes that event and none in between records it again |
| Schedules.PurgedEventLeavesTheJob | plugins/receivers/github/redeliver.go:246-256 | a run from an empty Redis in which the redelivery walk purges the event in that gap and the completed job stays in the cleaning list |
| ReachableStates.CleaningHoldsTheEntry | plugins/handlers/github/github.go:1062-1084 | RPOP and DEL on the cleaning list touch exactly the entry in process, and what goes back to the main queue is not completed |
| ReachableStates.GateIsRespected | plugins/handlers/github/github.go:1884-1899 | in every reachable state no job over the limit has a VM prepared or launched |
| ReachableStates.OverLimitIsCompleted | plugins/handlers/github/github.go:1884-1899 | a job over the limit is marked completed and its run ends, unless another host has taken it |
| CompletedJobs.HostKeepsCompleted | plugins/handlers/github/github.go:1054-1262 | every step of a handler, its updates whole, leaves a completed entry it has exactly as it is, or drops it |
| CompletedJobs.StepKeepsCompleted | plugins/handlers/github/github.go:1642-1690 | so does every step of the system, a takeover moving it along |
| CompletedJobs.CompletedStaysUntilDropped | internal/github/database.go:18-55 | over every run with whole updates a completed entry stays with a handler exactly as it is until cleanup drops it or a cancellation catches it in hand |
| CompletedJobs.OverLimitIsRemoved | plugins/handlers/github/github.go:1884-1899 | from the gate to the end of an undisturbed cleanup: a job over the limit is marked and then in none of the five lists (unless an earlier job was left in the cleaning list, or its action is in progress at shutdown), and the main queue is as before |
| ReachableStates.ResumeOwnsTheJob | plugins/handlers/github/github.go:2160-2184 | a pausing host that finds its job still in its queue resumes that very job, or finds it completed and stops |
| ReachableStates.PausedCancellationIsUnreachable | plugins/handlers/github/github.go:1176-1187 | with resumes whole, the paused-cancellation branch for a job in the cleaning list is never taken: the plugin queue is already empty when the message is pending |
| ReachableStates.HeadCheckIsComplete | internal/github/queue.go:381-449 | looking only at the heads of the handler lists misses no job stored in any of them |
| ReachableStates.QueuedEventIsEnqueuedIff | plugins/receivers/github/github.go:185-233 | handled on its own, a queued event is enqueued exactly when its job is neither in the main queue nor at a handler list head |
| ReachableStates.HeadCheckIff | internal/github/queue.go:383-449 | the look at the handlers finds a job by the id and run id of the first entry of a plugin queue or cleaning list |
| ReachableStates.SecondCopyIff | plugins/receivers/github/github.go:185-233 | in every reachable state a job that has copies gets another from a repeated event if and only if all its copies are in hand |
| EventLists.EventsStayUnique | plugins/receivers/github/github.go:234-327 | with deliveries one at a time, over every run the in_progress and the main completed list hold at most one entry per job id |
| EventLists.ConcurrentDeliveriesPushTwice | plugins/receivers/github/github.go:234-263 | two deliveries of one event at once both push: why the deliveries must be serialised |
| EventLists.OfOthers | plugins/receivers/github/redeliver.go:239-256 | what a restart of the receiver, the redelivery walk and a delivery given up do to the lists |
| EventLists.InProgressEventIsRecordedIff | plugins/receivers/github/github.go:234-263 | handled alone, an in_progress event is recorded if and only if its conclusion is not cancelled and its job has none recorded |
| EventLists.QueueSearchIff | plugins/receivers/github/github.go:264-300 | the search for a completed job finds its id at any position of the main queue or of a handler's lists |
| EventLists.CompletedEventIsRecordedIff | plugins/receivers/github/github.go:264-327 | a completed event is recorded exactly when its job is in some queued list and not recorded yet |
| Receiver.ContainsIff | plugins/receivers/github/github.go:35-49 | the substring test: some text before and some after make the whole |
| Receiver.ExistsInArrayPartial | plugins/receivers/github/github.go:35-49 | true exactly when every desired string stands somewhere in some item |
| Receiver.CheckIfJobExistsInHandlerQueues | internal/github/queue.go:383-449 | finds the job exactly when some handler list has it at its head |
| Receiver.InAQueue | plugins/receivers/github/github.go:264-300 | finds the job exactly when the main queue or some handler list has its id |
| Receiver.HandleWebhook | plugins/receivers/github/github.go:185-327 | for a job with the text anka-template in some label does to the lists exactly what the stages of a delivery in the state machine do, whatever other clients do between its commands; otherwise nothing |
| Receiver.HandleQueued | plugins/receivers/github/github.go:185-233 | the same for a queued event |
| Receiver.HandleInProgress | plugins/receivers/github/github.go:234-263 | the same for an in_progress event |
| Receiver.HandleCompleted | plugins/receivers/github/github.go:264-327 | the same for a completed event |
| PausedHandoff.StepKeepsInv | plugins/handlers/github/github.go:1642-1690 | every single lookup and write of the handoff keeps the paused queue to at most this one job |
| PausedHandoff.OwnersOfPausedJob | plugins/handlers/github/github.go:1642-1690 | under every interleaving of lookups and writes a paused job has one owner plus one for each write on a stale lookup; so exactly one owner if and only if there is no stale write |
| PausedHandoff.ResumeInsideTake | plugins/handlers/github/github.go:1642-1690 | a resume between a taker's lookup and its LREM: both run the job |
| PausedHandoff.TakeInsideResume | plugins/handlers/github/github.go:2160-2184 | a take between the lookup and the update of the pausing host: both run the job |
| PausedHandoff.TwoTakers | plugins/handlers/github/github.go:1656-1690 | two takers that both look before either removes: both run it, since the removed count is ignored |
| PausedHandoff.WholeHandoffsKeepOneOwner | plugins/handlers/github/github.go:2068-2184 | with take and resume each in one piece: the pausing host resumes and every later taker refuses, or exactly one taker holds the job and the pausing host abandons it |
| Sweep.ClaimFromMain | plugins/handlers/github/github.go:1723-1743 | claims the entry at the target index, which restarts past the end and resets when nothing is found |
| Sweep.RejectForHostLimits | plugins/handlers/github/github.go:2056-2061 | a claim rejected for host limits: the job returns to the head of the queue and the index moves on |
| Sweep.SweepIsFair | plugins/handlers/github/github.go:1723-1743 | after k rejections, with any receiver appends between, the first k jobs have each been examined once and in order, the rest is untouched, and without repeated ids the queue is the reverse of the first k followed by the rest |
| Sweep.SweepEnds | internal/config/config.go:644-656 | the index resets only when every job, also those appended meanwhile, has been examined |
| TemplateTracking.ExchangeSort | internal/config/config.go:753-768 | the in-place exchange sort yields an ordered permutation |
| TemplateTracking.SortingKeepsTemplates | internal/config/config.go:741-770 | an ordered permutation of the candidates is the eviction order |
| TemplateTracking.TemplateTracker.GetLeastRecentlyUsedTemplates | internal/config/config.go:741-770 | returns each template neither in use nor being pulled exactly once, and no other, by usage count then last access |
| TemplateTracking.TemplateTracker.UpdateTemplateUsage | internal/config/config.go:672-700 | counts a use, keeps the marks, and keeps the old size when none is known |
| TemplateTracking.TemplateTracker.SetTemplatePulling | internal/config/config.go:714-739 | marks or unmarks the template, and tracks an unknown one only to mark it |
| TemplateTracking.TemplateTracker.RemoveTemplate | internal/config/config.go:785-792 | forgets that template only |
| TemplateSpace.TemplateDownloadSize | internal/anka/lru_space.go:7-12 | what is missing of the template, nothing when the cache is larger: no underflow |
| TemplateSpace.TotalFreeable | internal/anka/lru_cleanup.go:169-179 | the loop computes the sum of the candidate sizes modulo 2^64 |
| TemplateSpace.EvictOne | internal/anka/lru_cleanup.go:203-229 | deletes one template from host and tracker and says whether there is room now |
| TemplateSpace.DeleteUntilEnough | internal/anka/lru_cleanup.go:185-230 | the delete-and-recheck loop deletes, from host and tracker, exactly what its recursive definition says, with failing deletions and failing checks skipped over |
| TemplateSpace.EnsureSpaceForTemplate | internal/anka/lru_cleanup.go:121-248 | outcome, deletions and tracker for every host, eviction order and failure, all branches |
| TemplateSpace.OutcomesIff | internal/anka/lru_cleanup.go:113-241 | each outcome if and only if its condition on the reported numbers: a local or fitting template is never refused, however little is free; nothing is deleted unless there are candidates and the test on their sum passes |
| TemplateSpace.EvictsShortestPrefix | internal/anka/lru_cleanup.go:185-230 | whatever deletions free and whichever checks fail, what is deleted is the prefix of the eviction order (wanted and stuck templates skipped) up to the first after which a working check finds the room, or all of it |
| TemplateSpace.DeletesOnlyEligible | internal/anka/lru_cleanup.go:185-207 | whatever fails, nothing in use, being pulled or wanted is deleted |
| TemplateSpace.DeletesOnlyIfItCanHelp | internal/anka/lru_cleanup.go:133-183 | whatever fails, nothing is deleted unless usable space plus all candidate sizes covers the download |
| TemplateSpace.FinalErrorIff | internal/anka/lru_cleanup.go:232-241 | the final error is returned if and only if the admission test passed and the deletions that work cannot make the room |
| TemplateSpace.FinalErrorIsUnreachable | internal/anka/lru_cleanup.go:148-241 | with accurate sizes and working deletions the branch the code calls impossible is unreachable, even if checks fail on the way |
| TemplateSpace.SuccessKeepsBuffer | internal/anka/lru_cleanup.go:101-134 | success with something to download leaves the buffer free after the download |
| TemplateSpace.WronglyRefusedIff | internal/anka/lru_cleanup.go:169-183 | the 64-bit admission test refuses room that could be made if and only if the true sum reaches 2^64 and its remainder is below the download; it never admits without the room |
| TemplateSpace.TwoHugeTemplatesAreRefused | internal/anka/lru_cleanup.go:169-183 | two candidates of 2^63 bytes and one byte wanted: refused |
| TemplateSpace.CountRunsOutIff | internal/anka/lru_cleanup.go:157-167 | the count reduced for a tracked target runs out although there is a candidate exactly when the one candidate is another template and the target is tracked but not eligible |
| TemplateSpace.RefusedDespiteRoomIff | internal/anka/lru_cleanup.go:154-183 | taken alone, where deleting would make the room this function refuses exactly in that case, and otherwise succeeds |
| TemplatePull.AnkaRegistryPull | internal/anka/cli.go:517-589 | the template is marked during the pull and unmarked however it ends; only a full success counts as a use; no other entry changes |
| TemplatePull.HasPullingTemplates | internal/config/config.go:804-814 | true exactly when some template is marked |
| TemplatePull.NeverDeletesTarget | internal/anka/lru_cleanup.go:185-191 | making room never deletes the wanted template |
| TemplatePull.RoomIsMade | internal/anka/cli.go:1051-1063 | with no template in use or being pulled, as its only caller makes sure, making room succeeds whenever there is room to be made |
| TemplatePull.PullDecision | internal/anka/cli.go:980-1043 | there is no pull exactly when the template is there under the tag asked for and a tag was asked for; which answers end it before |
| TemplatePull.EnsureVMTemplateExists | internal/anka/cli.go:972-1103 | pulls only with no other pull running and room made; leaves no mark behind and no template in use; does not refuse for space where there is room to be made; when it pulls, buffer and download fit the free space; a pull that fails for any reason is reported as a missing tag, and a canceled one as ready |
| RateBudget.RedeliveryBudgetFromRemaining | internal/github/ratelimit_budget.go:12-23 | half of what remains, at least one if any, never more than remains |
| RateBudget.RedeliveryBudget.Reserve | internal/github/ratelimit_budget.go:95-169 | granted only with room for n; recorded calls in every window stay within its share; it consumes answers up to the first that settles it: a window large enough grants it without further waiting, a failed refresh fails it, unless canceled |
| RateBudget.ShareCoversIff | internal/github/ratelimit_budget.go:14-23 | a window has room for n calls exactly when at least 2n remain (1 for n = 1) |
| RateBudget.NeverSettledIff | internal/github/ratelimit_budget.go:107-168 | a reservation waits through every window exactly when every window opens with less than that: a queued delivery needs a quota of six |
| RedeliveryWalk.WalkDelivery | plugins/receivers/github/redeliver.go:159-281 | one delivery makes exactly the recorded calls it needs, within what was reserved for it, and is skipped, purged or asked for again by its details |
| RedeliveryWalk.CollectPage | plugins/receivers/github/redeliver.go:120-129 | collects the entries with an action before the first that is too old, and says whether there was one |
| RedeliveryWalk.ListDeliveries | plugins/receivers/github/redeliver.go:101-134 | collects what the pages hold up to the limit, one reserved call a page |
| RedeliveryWalk.StoppingLosesNothing | plugins/receivers/github/redeliver.go:120-129 | stopping at the first entry too old loses no recent one when entries come newest first |
| RedeliveryWalk.ListedIsAllRecent | plugins/receivers/github/redeliver.go:101-134 | then all recent deliveries on all pages are collected |
| RedeliveryWalk.ListedIff | plugins/receivers/github/redeliver.go:101-134 | so a delivery is collected exactly when it is listed with an action and not older than the limit |
| RedeliveryWalk.FilterFailedOriginalDeliveries | plugins/receivers/github/redeliver.go:20-38 | keeps, in order, exactly the failed first attempts that are not in_progress |
| RedeliveryWalk.FailedOriginalsIff | plugins/receivers/github/redeliver.go:20-38 | what is kept, as a condition on the delivery |
| RedeliveryWalk.RedeliverOldestFirst | plugins/receivers/github/redeliver.go:159-297 | treats the candidates oldest first, each after its reservation |
| RedeliveryWalk.RunRedeliveryWalk | plugins/receivers/github/redeliver.go:82-314 | in every window the recorded calls are within the share; a finished walk has treated every candidate; it ends in a nil dereference exactly when the delivery just asked for has no redelivery flag |
| RedeliveryWalk.RequestedIff | plugins/receivers/github/redeliver.go:136-281 | asked for again are exactly the listed failed first attempts of Anklet jobs, but queued ones whose job GitHub says is cancelled, completed or in progress and completed ones recorded already; the queued lists play no part |
| RedeliveryWalk.PurgedIff | plugins/receivers/github/redeliver.go:239-256 | removed from the completed lists are exactly the jobs recorded there and not queued of which a completed delivery is among these failures |
| RedeliveryWalk.OldestFirst | plugins/receivers/github/redeliver.go:159-281 | what is done for older deliveries precedes and does not depend on newer ones |
| RedeliveryWalk.FilterKeepsOrder | plugins/receivers/github/redeliver.go:20-38 | the filter keeps the order of the list |
| RedeliveryWalk.CountCandidatesFittingBudget | plugins/receivers/github/redeliver.go:59-71 | the count fits the calls left and one more would not |
| RedeliveryWalk.FitIsLargest | plugins/receivers/github/redeliver.go:59-71 | no longer oldest-first run fits |
| RedeliveryWalk.CountIsRoundsWithoutWaiting | plugins/receivers/github/redeliver.go:52-71 | the count is the number of full-cost reservations that find room in one window |
| Retry.RetryOperation | internal/database/database.go:45-153 | at any nesting depth: at most (retries + 1) ^ depth calls; all calls but the last failed retriably; what is reported is the outcome of the last; a retriable failure without a deadline means all calls were made; the waits are bounded, and around a plain command are exactly the delays of the retries made |
| Retry.EndedIsFlat | internal/database/database.go:69-153 | such an ending is that of one loop with that many attempts, unless canceled |
| Retry.CheckIfKeyExists | internal/database/database.go:289-316 | the nested retry makes at most (retries + 1) squared calls and, without deadline and cancellation, ends as one loop of so many attempts |
| Retry.AwaitRetry | internal/database/database.go:78-107 | waits the delay of the attempt, part of it when canceled, and not at all when less time than that is left |
| Retry.Delay | internal/database/database.go:72 | the wait before a retry is delay * attempt * factor, truncated; none when that is not positive |
| Retry.DelaysGrow | internal/database/database.go:69-107 | with m retries one operation waits delay * factor * m (m + 1) / 2, up to m truncations |
| Retry.SleepBoundIs | internal/database/database.go:69-107 | the waits of nested operations in closed form |
| Retry.RetriesByDeadline | internal/database/database.go:48-60 | no retry with less than ten seconds left, one with less than thirty, else those configured |
| Retry.DeadlineAddsRetriesIff | internal/database/database.go:48-60 | a deadline, meant to fail faster, would add a retry exactly when none is configured and ten to thirty seconds remain |
| Metrics.CompareAndUpdateMetrics | internal/metrics/metrics.go:257-322 | counters never fall, and stay exactly when the update carries none above them; fields the update leaves empty are kept and the others taken; kind and name are kept; kinds must match |
| Metrics.MetricsDataLock.AddPlugin | internal/metrics/metrics.go:75-103 | adds the plugin at the end unless its name is taken |
| Metrics.MetricsDataLock.UpdatePlugin | internal/metrics/metrics.go:408-449 | merges the update into the entries of its kind and name |
| Metrics.MetricsDataLock.IncrementTotal | internal/metrics/metrics.go:123-255 | raises the total and, in turn, the counter of each handler entry of the context plugin |
| Metrics.OperationEffects | internal/metrics/metrics.go:75-255 | what each operation does to each entry: an added plugin is at the end unless its name is taken; an increment raises that one counter of that handler entry; an update reaches the entry of its name and kind only |
| Metrics.StepRises | internal/metrics/metrics.go:75-103 | every operation keeps counters from falling and names unique |
| Metrics.TotalsKeptIff | internal/metrics/metrics.go:123-255 | an operation keeps every total equal to the sum of the plugin counters if and only if: the plugin added is known or has counted nothing, the increment comes from a registered handler plugin, the update raises no counter |
| Metrics.RunRises | internal/metrics/metrics.go:75-255 | over any sequence of operations no counter falls and names stay unique |
| Metrics.RunKeepsTotals | internal/metrics/metrics.go:123-255 | over any sequence of such operations every total is the sum of the plugin counters |

## Left out

- Redis faults, process crashes, and an undecodable entry found after it was popped. Cancellation of the contexts is
  modelled; cleanup and the checker's moves of completed events use contexts of their own, which are never canceled.
- JSON text: malformed entries, and the conversion of ids through floating point when an entry is read.
- Steps that the state machine takes in one piece although the code uses several commands: `UpdateJobInDB`, one
  iteration of the completion checker, the resume of a paused job, the lookup and LREM by job id where a failed removal
  is only logged, and the receiver's look at all handler lists. The races inside update and resume are treated on their
  own (`GuardedUpdate.CompletionStaysIff`, `PausedHandoff.OwnersOfPausedJob`).
- JobQueue.DeleteFromQueue: no other client acts between its two commands; `JobQueue.DeleteFromQueueAmid` has them.
- Runs.StepKeepsInv: whole updates, checker iterations and resumes, as said above.
- Runs.StepKeepsBalance: likewise.
- Guarantees.RunKeepsInv: likewise.
- Guarantees.RunConserves: likewise.
- Guarantees.CopiesChange: likewise.
- Guarantees.NeverLostIff: likewise.
- Guarantees.OneOwner: likewise, and for a job enqueued once; the receiver's lookups miss a job in hand between two lists.
- Guarantees.AttemptsCountReturns: is for a job enqueued once and not doubled; for others the sums are conserved (`Guarantees.RunConserves`).
- CompletedJobs.HostKeepsCompleted: updates are whole; overlapping writers can undo a completion (`GuardedUpdate.CompletionStaysIff`).
- CompletedJobs.StepKeepsCompleted: likewise.
- CompletedJobs.CompletedStaysUntilDropped: likewise.
- CompletedJobs.OverLimitIsRemoved: the cleanup runs undisturbed; `Cleanup.CompletedIsPurgedIff` has another client in its gap.
- ReachableStates.ResumeOwnsTheJob: lookup and update of the resume are one step; `PausedHandoff.OwnersOfPausedJob` has them apart.
- ReachableStates.QueuedEventIsEnqueuedIff: for a delivery with no other step in between; `Receiver.HandleQueued` has others in between.
- ReachableStates.SecondCopyIff: likewise.
- EventLists.CompletedEventIsRecordedIff: likewise; `Receiver.HandleCompleted` has others in between.
- EventLists.EventsStayUnique: requires deliveries one at a time, since it is false otherwise.
- Receiver.CheckIfJobExistsInHandlerQueues: the code reads the heads one by one and in parallel; here at one instant.
- Receiver.InAQueue: likewise for the lists of the completed branch.
- JobQueue.PopJobOffQueue: an index beyond the end returns no job, as in the code.
- Cleanup.CompletedIsPurgedIff: needs one event entry per id, which `EventLists.EventsStayUnique` gives.
- Sweep.SweepIsFair: only for host-limit rejections by one handler; a job of another owner goes to the tail while the index still advances, and the index is shared by the plugins of one host.
- The paused list holds advertisements: in the state machine a handler may lose one or put one back more than once, as
  `PausedSearch` shows, so nothing is claimed about its contents over runs.
- PausedSearch.SearchPaused: no other client acts during the search, and what the handler finds out about each job is given; the finish signals it sends are left out.
- PausedSearch.AdvertisementIsLostIff: no two equal entries in the list before.
- Queue keys of one owner that is a prefix of another owner: the key patterns would mix their lists.
- Jobs whose run id is missing, for which the receiver skips the look at the handler lists.
- The preparing and paused flags between plugins, channels and goroutine timing: instead a handler may stop, be
  signalled or be checked at any step of its run; a stop with a job in hand loses that job.
- VM deletion, start and runner scripts: a deletion is recorded whether or not it succeeds, as its failure is only
  logged. A VM that could not be named, or whose entry was not pushed because of a cancellation, is not modelled.
- `UpdateJobsWorkflowJobStatus`, `watchJobStatus` and the cancellation of a workflow run: their effect on an entry is a
  new status, conclusion, action or VM name of any value.
- TemplateSpace.EnsureSpaceForTemplate: the disk buffer is a given number instead of a floating-point percentage, and the reported download size does not change with deletions.
- TemplatePull.EnsureVMTemplateExists: no other plugin of the host acts between the check for a running pull and the mark.
- TemplateTracking.TemplateTracker.GetLeastRecentlyUsedTemplates: returns values where the code returns pointers into the tracker, so later changes of an entry are not seen through it; counters do not wrap.
- RateBudget.RedeliveryBudget.Reserve: waiting for ever is waiting through every script of answers.
- RedeliveryWalk.WalkDelivery: counts recorded calls; the repository's wrapper (internal/github/client.go:337-420) repeats a call unrecorded, after a 404 or when ten or fewer calls remain.
- RedeliveryWalk.RunRedeliveryWalk: likewise bounds recorded calls; ids and GUIDs of deliveries are present; loading the lists from Redis does not fail.
- Metrics: the URLs of the last runs (kept like their times), the VM counters, the status setter and host metrics.
- HTTP servers, webhook signatures, GitHub and registry clients, configuration, logging, Prometheus and JSON rendering.
