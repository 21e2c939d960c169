# Verification of the n8n execution lifecycle and credential resolution

A Dafny model of the stateful core of `packages/cli`: how executions are added, parked, resumed,
cancelled and counted against the concurrency limit; how completed children resume their parents; how
credential overwrites and legacy credentials are resolved; how activation retries and waiting timers are
queued; and what the timeouts add up to. `dafny verify dfyconfig.toml` checks all of it.

## How the model is cut

* **Concurrency.** `ConcurrencyQueue` is the throttling queue. `ProcessModel` is one process: its record
  map, its record objects, its `add` calls and its capacity, with one function for each stretch of code
  between two awaits. `ActiveExecutions` is the service as a class, each method proved equal to the step of
  `ProcessModel` it stands for. `ProcessCapacity` and `ProcessRecords` prove what the steps keep,
  `ReservationDesk` and `LosingResume` exactly when a resume that loses leaves no trace, with two concrete
  traces in `LosingResumeTraces`.
  `Lifecycle` puts any number of processes over one table of execution rows; the only mutual exclusion is
  the conditional update of a row; `SwallowedResumes` is what a failed resume is told. `ParentUpdate` is a parent with its children, over its waiting episodes.
* **Resolution.** `CredentialGraph` and `CredentialTypes` are the inheritance closure,
  `CredentialsOverwrites` the memoised resolver, `InvalidCredentials` the cached replacement of node
  credentials.
* **Timers.** `ActivationQueue` (activation retries), `WaitTracker` (waiting executions) and `Deadlines`.

Settling a post-execute promise and running its reaction is one step, except while `shutdown` sweeps and
drains, where the reactions of what it has rejected come after its first look at the map.
`updateExistingExecution` with a required status is an atomic compare-and-set. A run is *live* from the
write that admits it until it writes its waiting or final status; only live runs write 'waiting'. Three
conditions on callers are named in `ProcessRecords.Orderly`: A1, no record is registered over an unsettled one; A2, a record that
reports waiting has settled before it is stopped; A3, a settled record is given no status but waiting.
They are never assumed silently: the lemmas say that the record map is consistent exactly when they hold.

## Where the code and what is said about it differ

The model follows the code.

* The comments at `active-executions.ts:106` and `workflow-runner.ts:328-330` say that a resumed run keeps
  its start time, so that its timeout counts from the first start. Only the wait tracker hands a start time
  over (`wait-tracker.ts:127`). A resume by webhook, form or chat message
  (`webhooks/webhook-helpers.ts:637-645`, `chat/chat-execution-manager.ts:176-183`) hands over none, so its
  timeout starts anew. And `setRunning` (`execution.repository.ts:369-375`), called again at
  `workflow-runner.ts:278`, overwrites `startedAt` on every resume, and the next resume reads that value.
  `Deadlines.PromiseKeptIff` gives the exact condition under which the promise holds,
  `Deadlines.WebhookResumeRestartsTheClock` a webhook that breaks it at the first resume, and
  `Deadlines.ParkingExtendsForEver` shows that even the wait tracker's resumes can miss it by any amount.
* `ConcurrencyQueue.remove` resolves the next waiting caller although no slot was freed, so cancelling one
  of several throttled executions exceeds the limit: `ConcurrencyQueue.WithinLimitIff` and
  `ConcurrencyQueue.RemoveOverAdmits`.
* `shutdown` calls `removeAll` after `disable`, so `removeAll` returns at once and the ids it is given never
  reach `cancelMany`. The executions it has just rejected are still in the map when it first looks, so it
  sleeps once for them: `ActiveExecutionsService.ActiveExecutions.Shutdown`.
* The child-result write has no status guard, so a child that read its parent in an earlier episode can
  put stale data into a later one: `ParentUpdate.ResumeDataIff`, and `ParentUpdate.StaleIsReachable` for how
  it comes about.
* A losing resume holds a slot for a while, and that can show. `LosingResume.OtherStepIff` says exactly when:
  the head of the queue is cancelled while the loser holds a slot
  (`LosingResumeTraces.CancelledBehindTheLoser`), a call asks for a slot while the loser holds one beyond the
  limit, which it can after a cancellation has let one too many through
  (`LosingResumeTraces.LetThroughBehindTheLoser`), or the control is switched off meanwhile.
* The id cache of `replaceInvalidCredentials` ignores the name: `InvalidCredentials.AgreesIff`.
* The queue promises to keep on trying to activate a workflow (`active-workflow-manager.ts:806-810`). In a
  multi-main setup the retry's `add` publishes a command and returns before it cleans the queue
  (`active-workflow-manager.ts:604-618`), which leaves an entry that the queue never tries again, unless the
  leader's handling of that command removes it:
  `ActivationQueue.PublishingStrands`, `ActivationQueue.StrandedUntilTouched`. And a failed attempt can arm a
  second timer, or find its entry gone: `ActivationQueue.StepInStepIff`, `ActivationQueue.UninterruptedAttempt`.
* A waiting execution can lose its timer while its entry stays: `WaitTracker.StepInStepIff`.

## Model

| member | source | states |
|---|---|---|
| ConcurrencyQueue.Queue.Enqueue | packages/cli/src/concurrency/concurrency-queue.ts:22-33 | the new queue state; the caller is suspended exactly when no capacity was left |
| ConcurrencyQueue.Queue.Dequeue | packages/cli/src/concurrency/concurrency-queue.ts:39-43 | gives one slot back and hands it to the first suspended caller |
| ConcurrencyQueue.Queue.Remove | packages/cli/src/concurrency/concurrency-queue.ts:45-55 | takes out the first caller of the execution, if any, and resolves the head of what remains |
| ConcurrencyQueue.Queue.ResolveNext | packages/cli/src/concurrency/concurrency-queue.ts:65-75 | resolves the head of the queue, first in first out |
| ConcurrencyQueue.StepTight | packages/cli/src/concurrency/concurrency-queue.ts:22-75 | one operation keeps "at most the limit in use, nobody waits beside a free slot" exactly when it is not an overtaking removal |
| ConcurrencyQueue.WithinLimitIff | packages/cli/src/concurrency/concurrency-queue.ts:22-75 | over every run, the limit is respected throughout exactly when no removal overtakes |
| ConcurrencyQueue.RunConserves | packages/cli/src/concurrency/concurrency-queue.ts:22-75 | over every run, limit minus capacity is the slots in use plus the suspended callers |
| ConcurrencyQueue.RemoveOverAdmits | packages/cli/src/concurrency/concurrency-queue.ts:45-55 | with limit 1, cancelling the second of three callers lets the third run beside the first |
| ProcessCapacity.StepAccounts | packages/cli/src/active-executions.ts:66-156 | every step of a process keeps the account of who holds a reservation, who waits and what was released |
| ProcessCapacity.CapacityConserved | packages/cli/src/active-executions.ts:120-156 | over every run before disable, the capacity taken is the reserved unfinished calls, the unsettled records and the queued callers |
| ProcessCapacity.ReleasedExactlyOnce | packages/cli/src/concurrency/concurrency-capacity-reservation.ts:23-36 | a reservation is released once, when its call failed or its record settled, never on both paths and never earlier |
| ProcessCapacity.RunNoIdleWait | packages/cli/src/concurrency/concurrency-control.service.ts:121-143 | over every run nobody waits in the queue while capacity is left |
| ProcessRecords.StepNewest | packages/cli/src/active-executions.ts:126-138 | the map never holds a record but the newest of its id, with no assumption on callers |
| ProcessRecords.NewestThroughout | packages/cli/src/active-executions.ts:126-138 | the same over every run |
| ProcessRecords.StepConsistentIff | packages/cli/src/active-executions.ts:126-156 | the map stays consistent (every unsettled record mapped, every mapped record that is not waiting unsettled) exactly when the step respects A1, A2 and A3 |
| ProcessRecords.ConsistentThroughoutIff | packages/cli/src/active-executions.ts:126-220 | the same over whole runs |
| ProcessRecords.SettlingDeletesItsOwn | packages/cli/src/active-executions.ts:141-156 | with matching ids alone: when finalizing or stopping takes an id out of the map, the mapped record was unsettled before and is settled after (or is a waiting one that a stop forgets), no other entry moves, and an unsettled record that is not waiting always goes; this rests on settling and reaction being one step |
| ProcessRecords.DeletesOnlyItsOwn | packages/cli/src/active-executions.ts:141-156 | in a consistent map a record leaves only by its own settlement, by a stop after it settled as waiting, or by the resume that replaces it; a run that settles keeps its record exactly when it settles as waiting, and then drops its workflow execution |
| ProcessRecords.ResponseModesFollow | packages/cli/src/active-executions.ts:151-154 | the response mode of an id goes with its record and no other one does |
| ProcessRecords.StrandsIff | packages/cli/src/active-executions.ts:193-220 | a step leaves an unsettled record outside the map exactly when it breaks A1 or A2 |
| ProcessRecords.OrphanForever | packages/cli/src/active-executions.ts:223-242 | such a record is never settled by any later step, so its promise hangs and its capacity is lost |
| ProcessRecords.EarlyResumeLosesTheRecord | packages/cli/src/active-executions.ts:138-156 | without A1 the late finalize of a parked run settles the resumed run, whose live record is deleted |
| ProcessRecords.EarlyResumeReachable | packages/cli/src/active-executions.ts:126-156 | a run from the start, under any limit, that breaks A1 and loses the record of the resumed run |
| ProcessRecords.EarlyStopReachable | packages/cli/src/active-executions.ts:209-213 | a run from the start, under any limit, that breaks A2 and strands the record |
| ProcessRecords.CarriedOver | packages/cli/src/active-executions.ts:127-138 | while an id stays in the map, over any number of resumes, its start time never changes and its response promise is the one attached last |
| ProcessRecords.LosingStepsTouchNothing | packages/cli/src/active-executions.ts:97-123 | no step of a losing resume touches map, records or response modes, and once it has thrown it holds nothing |
| ProcessRecords.LosingResumeIsNoOp | packages/cli/src/active-executions.ts:97-123 | an uninterrupted losing resume that finds capacity leaves the whole process as it was |
| ReservationDesk.OtherAskIff | packages/cli/src/concurrency/concurrency-queue.ts:22-33 | asking for a slot comes to the same with and without another call, exactly unless that call holds a slot beyond the limit and nobody waits |
| ReservationDesk.OtherDropIff | packages/cli/src/concurrency/concurrency-queue.ts:45-55 | cancelling a waiter comes to the same with and without another call, exactly unless it hits the head while that call holds a slot |
| LosingResume.OtherStepIff | packages/cli/src/active-executions.ts:97-156 | any step of anything else does with the losing resume what it does without it, exactly unless it slips: one of these two, or switching the control off while the resume holds a slot or waits |
| LosingResume.ShadowsIff | packages/cli/src/active-executions.ts:97-123 | over every run the process is in every state what the other steps alone make of it, the resume's own place or slot undone, exactly when no step slips |
| LosingResume.LeavesNoTrace | packages/cli/src/active-executions.ts:97-123 | the same from every reachable state; and when no step slips, once the losing resume has thrown, map, records, response modes, queue, free capacity and all other calls are what the other steps alone make of them |
| LosingResumeTraces.CancelledBehindTheLoser | packages/cli/src/concurrency/concurrency-control.service.ts:139-143 | a concrete run in which the head of the queue is cancelled behind the loser |
| LosingResumeTraces.OverAdmissionReachable | packages/cli/src/concurrency/concurrency-queue.ts:45-55 | a run from the start after which two calls have a slot under limit 1 |
| LosingResumeTraces.LetThroughBehindTheLoser | packages/cli/src/concurrency/concurrency-queue.ts:22-43 | from there, a losing resume lets the next call through that would wait without it |
| ActiveExecutionsService.ActiveExecutions.constructor | packages/cli/src/active-executions.ts:39-53 | starts empty, with the concurrency control on in regular mode |
| ActiveExecutionsService.ActiveExecutions.BeginAdd | packages/cli/src/active-executions.ts:62-70 | a new call that holds nothing yet |
| ActiveExecutionsService.ActiveExecutions.Reserve | packages/cli/src/active-executions.ts:90-99 | the call holds a reservation or is suspended in the queue |
| ActiveExecutionsService.ActiveExecutions.AdmitCall | packages/cli/src/active-executions.ts:92-119 | the database's answer decides between going on and throwing |
| ActiveExecutionsService.ActiveExecutions.FailAdd | packages/cli/src/active-executions.ts:120-123 | releases the reservation, possibly resuming a suspended call, and touches no record |
| ActiveExecutionsService.ActiveExecutions.FinishAdd | packages/cli/src/active-executions.ts:126-138 | registers a record that inherits start time and response promise from the one it overwrites |
| ActiveExecutionsService.ActiveExecutions.React | packages/cli/src/active-executions.ts:141-156 | the reaction of a settled promise: release, then keep or delete the record by id |
| ActiveExecutionsService.ActiveExecutions.RequestStop | packages/cli/src/active-executions.ts:193-220 | stopExecution by itself: forgets a waiting record, or rejects the promise and leaves the rest to the reaction |
| ActiveExecutionsService.ActiveExecutions.AttachWorkflowExecution | packages/cli/src/active-executions.ts:167-169 | attaches to the mapped record, or throws |
| ActiveExecutionsService.ActiveExecutions.AttachResponsePromise | packages/cli/src/active-executions.ts:171-176 | replaces the response promise of the mapped record, or throws |
| ActiveExecutionsService.ActiveExecutions.StopExecution | packages/cli/src/active-executions.ts:193-220 | stopping together with the reaction is the step of the model |
| ActiveExecutionsService.ActiveExecutions.FinalizeExecution | packages/cli/src/active-executions.ts:223-242 | resolves the promise of whatever record the id maps to now |
| ActiveExecutionsService.ActiveExecutions.SetStatus | packages/cli/src/active-executions.ts:290-292 | changes the status of the mapped record, or throws |
| ActiveExecutionsService.ActiveExecutions.RemoveThrottled | packages/cli/src/concurrency/concurrency-control.service.ts:139-143 | drops a throttled call and resumes the next one |
| ActiveExecutionsService.ActiveExecutions.SweepId | packages/cli/src/active-executions.ts:317-326 | one iteration deals with its own id only, so no status lookup of the sweep misses |
| ActiveExecutionsService.ActiveExecutions.Sweep | packages/cli/src/active-executions.ts:307-326 | exactly which ids leave the map at once, which records are rejected, which reactions are still to come and which response modes go, with and without cancelAll; calls, queue and capacity stay |
| ActiveExecutionsService.SweepSettlesAll | packages/cli/src/active-executions.ts:317-326 | in regular mode with cancelAll the sweep of a consistent map takes each id out or settles it for removal: rejected, and its reaction, which will delete it, is to come |
| ActiveExecutionsService.SweepEmpties | packages/cli/src/active-executions.ts:317-326 | once these reactions have run the map is empty |
| ActiveExecutionsService.ActiveExecutions.Drain | packages/cli/src/active-executions.ts:330-339 | the loop looks, and sleeps while the map is not empty; left-over reactions run in the first sleep and any executions finish in each; for every schedule at most as many sleeps as the map had entries find it smaller; when everything in the map runs and finishes, it ends empty after the last one has |
| ActiveExecutionsService.DrainShrinks | packages/cli/src/active-executions.ts:330-339 | each running execution that finalizes takes one entry out, so map size measures the loop |
| ActiveExecutionsService.ActiveExecutions.Shutdown | packages/cli/src/active-executions.ts:307-340 | nothing reaches cancelMany; with cancelAll on a consistent map it ends with an empty map, after one sleep if anything but waiting executions was in it, and none otherwise; without cancelAll it ends with an empty map once the executions that were running have finished |
| Lifecycle.NextSafe | packages/cli/src/active-executions.ts:97-119 | every event keeps one live run per execution, none while waiting, bounded resumes and every process's account |
| Lifecycle.OneLiveRun | packages/cli/src/active-executions.ts:97-119 | over every interleaving of any number of processes: one live run per execution, and no more successful resumes than entries into 'waiting' |
| Lifecycle.DuplicateResumesAbsorbed | packages/cli/src/wait-tracker.ts:131-145 | after a resume has won, every other claim before the next park is refused and changes no row, live run, map or record |
| Lifecycle.NextConsistentIff | packages/cli/src/active-executions.ts:126-156 | system-wide, the record maps stay consistent exactly when the process that moves respects A1, A2 and A3 |
| Lifecycle.ConsistentThroughoutIff | packages/cli/src/active-executions.ts:126-220 | the same over every interleaving of any number of processes |
| Lifecycle.ReachableConsistentIff | packages/cli/src/active-executions.ts:126-220 | the same from the start of the system |
| Lifecycle.LineageCompleted | packages/cli/src/wait-tracker.ts:147-167 | along a chain of wake-ups each execution is the parent of the one before, is to be restarted, and the one before has completed |
| Lifecycle.CascadeFollowsCompletion | packages/cli/src/wait-tracker.ts:131-167 | in every reachable state each call of a cascade is for the parent, not told to stay, of a child whose promise resolved with results other than 'waiting', watched by an earlier call of the same process that won; a lost resume watches nothing |
| Lifecycle.QuietNeverWakes | packages/cli/src/wait-tracker.ts:151-166 | over every run, a watch whose record settled as cancelled, without results or as waiting again has caused no call and never will |
| Lifecycle.CompletionWakes | packages/cli/src/wait-tracker.ts:163-166 | once a watched child has completed, with success or with an error, its parent can be woken, by the same process and only once |
| Lifecycle.WatchIff | packages/cli/src/workflow-helpers.ts:257-268 | a winning call watches its child exactly when the child has a parent and the flag is absent or true |
| Lifecycle.OneCascadePerCall | packages/cli/src/wait-tracker.ts:147-167 | over every interleaving, each call that resumes a child wakes the parent at most once |
| SwallowedResumes.SwallowedAfterAnother | packages/cli/src/wait-tracker.ts:131-145 | over every interleaving: between a time the row was waiting and a resume of it that is swallowed, another call's resume has won or the row was taken out of 'waiting' from outside |
| SwallowedResumes.SwallowedIff | packages/cli/src/wait-tracker.ts:131-145 | a failed resume, swallowed because the row is not waiting or rethrown because the database failed, changes no row, live run, record map or watch |
| ParentUpdate.ResumedOnceWithChildOutput | packages/cli/src/workflow-helpers.ts:286-318 | within one episode, under every interleaving, the parent resumes at most once, with its parked data, or with these and the data of the stack head replaced by the output of a child that has completed and written; the head's node, the rest of the stack and the rest of the data are untouched; a webhook changes only the main input of the head; when a child with output wins, the head's data are replaced |
| ParentUpdate.UninterruptedWakerResumes | packages/cli/src/workflow-helpers.ts:286-318 | any waker that nothing interrupts resumes a waiting parent, with exactly the data it owes |
| ParentUpdate.GivesUpIff | packages/cli/src/webhooks/waiting-webhooks.ts:161-171 | a waker gives up on reading exactly when the parent has finished, or, as a webhook, when it is running or has no node to take the data |
| ParentUpdate.ResumeDataIff | packages/cli/src/workflow-helpers.ts:293-317 | a freshly parked parent can only resume with fitting data exactly when no waker holds unfitting data from before |
| ParentUpdate.StaleIsReachable | packages/cli/src/workflow-helpers.ts:314-317 | a run across two episodes, for any data: the parent resumes with the earlier episode's data and loses what it parked with since |
| ParentUpdate.EveryEpisodeWell | packages/cli/src/workflow-helpers.ts:286-318 | over any number of episodes: one resume at most in each, with data that fit it, as long as no waker uses what it read in an earlier episode |
| CredentialTypes.GetParentTypes | packages/cli/src/credential-types.ts:26-38 | ends on every acyclic catalog; lists exactly the proper ancestors, each after the inner nodes of a path to it; bounded length |
| CredentialGraph.PushedIsLighter | packages/cli/src/credential-types.ts:33-35 | what a visit pushes weighs less than the type visited, the measure of the loop over the growing array |
| CredentialsOverwrites.CredentialsOverwrites.SetPlainData | packages/cli/src/credentials-overwrites.ts:102-115 | in any key order and whatever was loaded before, the stored data resolves the raw data; a type whose lineage no other overwritten type shares is stored with every field it inherits, and so is at least one type in any case |
| CredentialsOverwrites.CredentialsOverwrites.GetOverwrites | packages/cli/src/credentials-overwrites.ts:177-207 | every field it returns has a value the raw data gives the type; it returns every field of the type and of each ancestor that some way of known, unmarked types leads to; and it marks only such types |
| CredentialsOverwrites.CredentialsOverwrites.Get | packages/cli/src/credentials-overwrites.ts:209-216 | exactly the fields the type or an ancestor defines, each with a value at a nearest definition |
| CredentialsOverwrites.AnswersNearest | packages/cli/src/credentials-overwrites.ts:209-216 | on single-inheritance chains: for each field the raw value of the nearest type that defines it, and no other field |
| CredentialsOverwrites.AnswerUnique | packages/cli/src/credentials-overwrites.ts:102-115 | the answer depends on no key order, early mark, duplicate ancestor or earlier data |
| CredentialsOverwrites.ReloadKeepsAnswers | packages/cli/src/credentials-overwrites.ts:117-130 | saving the resolved data and loading it again changes no answer |
| CredentialsOverwrites.CredentialsOverwrites.ApplyOverwrite | packages/cli/src/credentials-overwrites.ts:139-175 | overwritten fields that are absent, null or empty get the overwrite, nothing else changes; for skip-list types this happens only if the user has set no overwritten field to something else |
| CredentialsOverwrites.AppliedIdempotent | packages/cli/src/credentials-overwrites.ts:139-175 | applying twice is applying once |
| CredentialsOverwrites.AppliedKeepsValues | packages/cli/src/credentials-overwrites.ts:165-172 | a stored value that is not empty is never changed and no field is lost |
| CredentialsOverwrites.SkipIsAllOrNothing | packages/cli/src/credentials-overwrites.ts:146-163 | for skip-list types: the input, or agreement with the overwrites on every overwritten key |
| InvalidCredentials.ReplaceInvalidCredentials | packages/cli/src/workflow-helpers.ts:115-223 | disabled nodes stay; in the others a reference by name becomes the only row of its name and type, or stays when it is the first to it and gets the {id: null} form later; a reference by id becomes the row of its id, or falls back on an earlier hopeless one, then on its name; each legacy type and name is asked exactly once |
| InvalidCredentials.ReplaceOne | packages/cli/src/workflow-helpers.ts:131-169 | one credential: outcome, caches and database question |
| InvalidCredentials.ReplaceById | packages/cli/src/workflow-helpers.ts:171-218 | the same for one credential with an id, including what is cached |
| InvalidCredentials.LookupMeans | packages/cli/src/workflow-helpers.ts:185-208 | the separate lookup: the row of the id and type, else the only row of the name and type, else nothing |
| InvalidCredentials.AgreesIff | packages/cli/src/workflow-helpers.ts:171-218 | agreement with a separate lookup for every credential exactly when no two references to an unknown id conflict in name |
| InvalidCredentials.NodesAgree | packages/cli/src/workflow-helpers.ts:126-220 | the same for the nodes as rewritten; disabled nodes are untouched |
| InvalidCredentials.CachedDisagrees | packages/cli/src/workflow-helpers.ts:211-218 | a concrete conflict in which the cached answer hides a resolvable name |
| ActivationQueue.ActiveWorkflowManager.AddQueuedWorkflowActivation | packages/cli/src/active-workflow-manager.ts:811-863 | replaces any earlier entry and its timer by a new one with the initial delay |
| ActivationQueue.ActiveWorkflowManager.RemoveQueuedWorkflowActivation | packages/cli/src/active-workflow-manager.ts:868-873 | removes the entry and clears the timer it names |
| ActivationQueue.ActiveWorkflowManager.RemoveAllQueuedWorkflowActivations | packages/cli/src/active-workflow-manager.ts:878-882 | leaves no entry, and no armed timer but those no entry named; of a queue in step, none |
| ActivationQueue.RemoveAllLeaves | packages/cli/src/active-workflow-manager.ts:878-882 | the same in every reachable state: the timers left are exactly those no entry named |
| ActivationQueue.ActiveWorkflowManager.AddCleans | packages/cli/src/active-workflow-manager.ts:691-692 | an attempt that got through removes whatever entry its workflow has by then |
| ActivationQueue.ActiveWorkflowManager.AttemptEnds | packages/cli/src/active-workflow-manager.ts:818-851 | the end of an attempt, returned or thrown, and when the error handler's lookup is undefined |
| ActivationQueue.StepInStepIff | packages/cli/src/active-workflow-manager.ts:811-882 | entries and timers stay in correspondence, with the delay owed, exactly unless a failed attempt overlaps a new entry or an attempt returns with its own entry still queued |
| ActivationQueue.InStepThroughoutIff | packages/cli/src/active-workflow-manager.ts:811-882 | the same over every run of interleaved operations |
| ActivationQueue.SingleMainInStepIff | packages/cli/src/active-workflow-manager.ts:604-630 | with a single main and workflows that have an active version, overlaps are the only way out of step |
| ActivationQueue.OneTimerEach | packages/cli/src/active-workflow-manager.ts:853-862 | at most one armed timer per workflow, that of its current entry; after k failures its delay is min(1000*2^k, one day) |
| ActivationQueue.BackoffInNumbers | packages/cli/src/constants.ts:79-80 | the delays in numbers: 1000, 2000, up to 65536000 after sixteen failures and 86400000 from then on |
| ActivationQueue.OthersUntouched | packages/cli/src/active-workflow-manager.ts:811-882 | no operation on one workflow touches the entry, timers or attempts of another |
| ActivationQueue.WaysOn | packages/cli/src/active-workflow-manager.ts:604-636 | which ways an attempt can go on, by setup, mode and version |
| ActivationQueue.UninterruptedAttempt | packages/cli/src/active-workflow-manager.ts:818-846 | the four courses of an uninterrupted attempt: its entry is gone exactly if the queue was cleaned; the lookup is undefined exactly when it fails after that; failing before, the delay is doubled; returning early, the entry is stranded |
| ActivationQueue.StrandedUntilTouched | packages/cli/src/active-workflow-manager.ts:806-863 | a stranded workflow is not tried again until something queues or removes it or another attempt for it is under way |
| ActivationQueue.OverlapArmsTwice | packages/cli/src/active-workflow-manager.ts:843-844 | concrete runs that end with two timers armed for one workflow, queued again before or after the attempt has cleaned the queue |
| ActivationQueue.PublishingStrands | packages/cli/src/active-workflow-manager.ts:604-618 | a concrete run in a multi-main setup that ends with an entry and no timer or attempt |
| WaitTracker.Service.GetWaitingExecutions | packages/cli/src/wait-tracker.ts:59-87 | after a poll the entries are the earlier ones, unchanged, and the due executions; each due one that had none has a new timer armed for it; no other timer comes or goes |
| WaitTracker.Service.StopWaiting | packages/cli/src/wait-tracker.ts:89-95 | clears the timer and removes the entry |
| WaitTracker.Service.BeginStart | packages/cli/src/wait-tracker.ts:97-99 | drops the entry without clearing its timer |
| WaitTracker.Service.EndTracking | packages/cli/src/wait-tracker.ts:170-180 | clears the timers of all entries and keeps the entries |
| WaitTracker.StepInStepIff | packages/cli/src/wait-tracker.ts:59-99 | entries and timers come apart exactly on a start that is not the timer's own, and when tracking stops with something tracked |
| WaitTracker.InStepThroughoutIff | packages/cli/src/wait-tracker.ts:59-99 | the same over every run |
| WaitTracker.StrandedUntilTouched | packages/cli/src/wait-tracker.ts:75-86 | an entry without a timer is skipped by every later poll, until the execution is started or stopped directly |
| WaitTracker.StopTrackingStrands | packages/cli/src/wait-tracker.ts:170-180 | stopping strands exactly the tracked executions |
| Deadlines.BudgetMeans | packages/cli/src/workflow-runner.ts:239-242 | the budget is the workflow's setting or else the default, in milliseconds, capped at the maximum; none if either is not positive |
| Deadlines.ArmTimeout | packages/cli/src/workflow-runner.ts:239-347 | the run is stopped at max(now, start + budget), at once when that has passed, and the delay stays within the budget; a delay beyond the runtime's longest goes off after a millisecond |
| Deadlines.ParkingNeutralIff | packages/cli/src/workflow-runner.ts:325-333 | a resume keeps the first start's deadline exactly when it hands over a start time and the run before it was marked at the first start or its budget is spent, or hands over none and no time has passed; it never shortens it |
| Deadlines.PromiseKeptIff | packages/@n8n/db/src/repositories/execution.repository.ts:369-375 | the same for a whole history of parks |
| Deadlines.FirstResume | packages/cli/src/wait-tracker.ts:121-128 | the wait tracker's first resume keeps the promise; a resume that hands no start time over breaks it once time has passed |
| Deadlines.WebhookResumeRestartsTheClock | packages/cli/src/webhooks/webhook-helpers.ts:637-645 | a concrete webhook resume that is stopped at 1100 instead of 1000 |
| Deadlines.ParkingExtendsForEver | packages/@n8n/db/src/repositories/execution.repository.ts:369-375 | by parking in time again and again, with every resume handing the start time over, an execution outlives its first deadline by any amount |
| Deadlines.SubworkflowTimeout | packages/cli/src/workflow-execute-additional-data.ts:352-363 | ties the code to the function the next lemmas are about |
| Deadlines.OneLevel | packages/cli/src/workflow-execute-additional-data.ts:352-361 | one level: its start plus 1000 times its timeout, or the inherited deadline if that is earlier |
| Deadlines.BottomIsLeast | packages/cli/src/workflow-execute-additional-data.ts:352-363 | at any depth the deadline is the least of the root's and every limited level's own, absent only if there is none |
| Deadlines.NeverLaterThanAncestors | packages/cli/src/workflow-execute-additional-data.ts:352-363 | it is never later than at any level above |
| Deadlines.NeverLaterIff | packages/cli/src/workflow-execute-additional-data.ts:358-361 | for all times, one level passes on a later deadline exactly when it inherited 0 and has a later one of its own |
| Deadlines.NeverLaterFromTheRoot | packages/cli/src/workflow-runner.ts:263-264 | a run starts with no deadline or a positive one, so no level ever inherits 0 and none passes on a later deadline than it inherited |

## Left out

- ConcurrencyQueue.WithinLimitIff: one queue; the production and evaluation queues are two independent copies, and modes without a limit are calls that are not metered.
- ProcessCapacity.CapacityConserved: a call whose database write fails after committing is not distinguished from one that fails before.
- LosingResume.LeavesNoTrace: the equivalence is about every state of the run; what a slip changes can cancel out again before the end.
- ProcessRecords.StepConsistentIff: the reaction of a settled promise runs with the settling, not a microtask later.
- Lifecycle.OneLiveRun: a process crash and the later marking of its rows as crashed; row contents other than status, parks and resumes.
- Lifecycle.CascadeFollowsCompletion: that a cascade is registered at all; when the record is gone before the watch starts the program drops the cascade.
- ParentUpdate.ResumedOnceWithChildOutput: children carry their last output directly; getDataLastExecutedNodeData, with its pinned-data case, is not part of this model.
- ParentUpdate.ResumeDataIff: what a webhook does to the data besides giving the stack head its main input, such as disabling the head's node.
- CredentialsOverwrites.CredentialsOverwrites.SetPlainData: the in-place change of the caller's object; known and loaded credential types are one catalog.
- InvalidCredentials.ReplaceInvalidCredentials: the caches are maps with own keys only; JavaScript's inherited property names are not modelled, nor is aliasing of cached detail objects between nodes.
- ActivationQueue.StepInStepIff: what `add` does besides cleaning the queue; webhooks, triggers and pollers; a change between single and multi-main while running.
- WaitTracker.StepInStepIff: trigger times and the polling interval.
- Deadlines.PromiseKeptIff: the times the program computes; with a budget of more than 2147483647 ms (24.8 days) the runtime's timer stops the run after a millisecond, as ArmTimeout says.
- Deadlines.ArmTimeout: the timer firing is the Stop step of ProcessModel; the soft deadline of the engine is left to it.
- `getActiveExecutions`, `sendChunk`, `resolveExecutionResponsePromise` and the closing of streaming responses: lookups and output only.
- `processError` and the queue-mode branch of WorkflowRunner: they end in the Finalize and Stop steps, which callers may take at any time in the model.
- `removeAll` of the concurrency control past its guard: shutdown never gets there.
- The workflow engine, the Bull queue, encryption, persistence and the settings table.
