# Verified model of asyncjobs

asyncjobs runs tasks from a work queue with many competing processors and elects one
scheduler to feed it. This project models the parts where that is hard, and proves what
they promise over every run, every interleaving and every input.

**Leader election** (`KeyValue`, `Election`, `ElectionTerms`, `ElectionTimed`, `Scheduler`).
Participants race on one key of a key-value bucket with compare-and-swap writes. A request
may be answered, lost, applied without an answer, or cut short by its context; others may
overwrite, delete or expire the key at any moment. `ElectionTerms` has no clock and covers
every run; `ElectionTimed` adds tickers, the key's age and the scheduler's enqueue gate.

**Task lifecycle** (`Tasks`, `Lineage`, `TaskStore`, `TaskSystem` and the other `Task…` modules).
Any number of workers, producers and administrators interleave over a task store with
optimistic concurrency and a queue of items. Loading, checking, visiting each parent,
saving, running, discarding and settling are separate steps, so every race between a load
and a save is in the model. Workers crash at any step, items are handed to several workers
at once, requests are lost or lose their answers. Beside the state, the machine records the
`lineage` of each task, the versions stored since its creation.

**The code in one go** (`Storage`, `Processor`, `Uninterrupted`). The storage, client and
processor operations are classes that update their fields in place, each proved against a
function of the old state. `Uninterrupted` proves that what those operations do without
interference is a run of one actor of the interleaving machine. That the code, interrupted
between its requests, does what the machine's steps do in between is by reading the two side
by side, not by proof.

**Smaller cores**: the task router (`Mux`), the idempotency map of the HTTP server
(`Idempotency`), retry intervals (`RetryPolicy`) and the signed message (`Signature`).

Some promises hold only under a condition. For those there is a theorem under the
condition and a lemma with a concrete run or family of inputs where it fails:

- At most one leader is announced in all runs exactly when leaders all wait equally long
  between ticks and none runs on through a context error on its refresh, or leaders wait so
  long that the key always expires (`SingleLeaderExactly`). Candidates may wait as they
  like: a Backoff is harmless as long as what it gives for zero tries is one fixed value on
  all nodes, and breaks the promise once it varies.
- If neither a task nor its dependencies are retried by hand, deleted or discarded, it starts
  with its dependencies completed and its results loaded exactly when its record shows no
  failed enqueueing, it has no dependencies, or they happen to be completed and wanted
  results are there (`ClearedExactly`): the queue error state bypasses the dependency check,
  also when the item exists after all (`QueueErrorSkipsDependencies`).
- A task that is new, to be retried or active is never stranded exactly when no save of it is
  lost, its item is not handed out while a worker is busy with it, and not replaced while a
  worker that was handed it may still take the task up; a blocked one exactly when moreover
  no worker crashes between terminating its item and recording it as unreachable
  (`NeverStrandsExactly`). Each of these alone strands work for every client configuration,
  and nothing that happens to other tasks matters.
- The signed message belongs to one task exactly when no colon inside id, queue or type can
  be read as a separator (`MessageIsUniqueExactly`), and a retry keeps it exactly when the
  queue stays the same (`RetryKeepsMessageExactly`).

Code and documentation disagree in one place that matters here. The election's package
comment (`election/election.go`, lines 23 and 24) says a leader gets multiple refresh
attempts before its record expires. With a tick at 75% of the retention time only one
attempt fits, and a refused attempt ends the leadership at once. The model follows the code.

`dafny verify dfyconfig.toml` checks the whole project.

## Model

| member | source | states |
|---|---|---|
| `Election.CallbackDiscipline` | election/election.go:185-370 | Over any sequence of starts, ticks, faults and shutdowns OnWon and OnLost strictly alternate from OnWon, are balanced whenever no Start runs, and IsLeader holds exactly while the last call was OnWon |
| `Election.TriesCountLosses` | election/election.go:165-182 | Over the same sequences tries is the number of campaigns lost since the last one won, and zero while leading |
| `Election.Participant.CampaignForLeadership` | election/election.go:165-182 | A campaign is won exactly if the key is free and the request is answered; then the node leads unannounced with the new revision, otherwise tries goes up by one |
| `Election.Participant.MaintainLeadership` | election/election.go:185-222 | A refresh succeeds exactly if the live revision is the remembered one and the request is answered; a context error changes nothing, any other failure stands down, and the callbacks are told by the pending announcement alone |
| `Election.Participant.Try` | election/election.go:224-258 | One tick, with the callbacks fired after the mutex is released |
| `Election.Participant.Stop` | election/election.go:320-327 | Standing down: candidate, the largest 64-bit number as revision, not started; tries and the pending announcement survive |
| `Election.Participant.Start` | election/election.go:260-352 | A whole Start is refused if one runs; otherwise it takes the initial and all later ticks with interference in between, and leaves callbacks alternating and balanced |
| `ElectionTerms.DisjointTerms` | election/election.go:165-222 | In every run the spans from a successful Create to the last successful Update never overlap in revision order, and every revision inside a span was written by its own node |
| `ElectionTerms.AtMostOneHolder` | election/election.go:34-36 | In every reachable state at most one leader's remembered revision can still refresh the key, with lost answers, expiry, deletes and foreign writes |
| `ElectionTimed.TimedSingleLeader` | election/election.go:29-32 | With any number of nodes, leaders at one period and candidates at any gaps, and the key expiring, deleted or overwritten at any time, at most one node is announced and at most one scheduler passes its gate |
| `ElectionTimed.LeadersCountNoTries` | election/election.go:175-178 | In every run a leader's count of lost campaigns is zero, so a Backoff gives every leader its interval for zero tries |
| `ElectionTimed.SingleLeaderExactly` | election/election.go:283-302 | At most one announced leader in all runs if and only if leaders' gaps are equal and no leader runs on through a context error, or every leader's gap outlasts the key |
| `ElectionTimed.UnequalGapsBreakIt` | election/election.go:289-293 | As soon as leaders' gaps may differ, as with a Backoff whose value for zero tries varies, some run announces two leaders at once |
| `ElectionTimed.NobodyIsAnnounced` | election/election.go:188-212 | If leaders wait at least as long as the key lives, every refresh is refused and no leader is ever announced |
| `ElectionTimed.ContextErrorsBreakIt` | election/election.go:189-196 | A leader kept through a context error while running lets some run announce two leaders, even with equal gaps |
| `ElectionTimed.LeaderNeverLosesKey` | election/election.go:17-21 | After anything at all, if from a moment at which a node does not lead nobody outside writes the key and the node's own requests are answered, then whenever it leads it holds the key unexpired and its next tick succeeds, whatever becomes of other nodes and their requests |
| `ElectionTimed.BoundedFailover` | election/election.go:34-38 | If the key was last written at w and a watching candidate stays, some step writes it again before w + TTL + the candidates' longest gap, whichever other nodes leave, crash or lose requests; a writer that got its answer leads, and is announced one leader gap later if it stays |
| `ElectionTimed.HolderIsAnnounced` | election/election.go:213-219 | A leader that holds the key and stays goes on holding it and is announced from its next tick on |
| `Scheduler.TaskScheduler.Deliver` | task_scheduler.go:59-77 | After any callbacks the leader flag is what the last one says |
| `Scheduler.TaskScheduler.Trigger` | task_scheduler.go:170-185 | A trigger reaches enqueueing exactly for a known schedule on the leader |
| `Tasks.NewTask` | task.go:122-172 | A task is made exactly for a valid type and id, carries what it was given with the default limit unless one was set, and starts fresh: blocked exactly if it has dependencies |
| `Tasks.DependOn` | task.go:269-283 | Dependencies become exactly the old ids followed by the new ones in order of first mention, without duplicates |
| `Tasks.NamesAreSpelled` | asyncjobs.go:81-88 | Valid names are the non-empty strings over exactly the 65 characters listed |
| `Tasks.CheckMeans` | processor.go:149-193 | Which verdict a delivered task gets, in terms of its state, last try, deadline, tries and dependencies, one condition per verdict |
| `TaskStore.SurveyMeans` | processor.go:68-97 | A blocked task's dependencies are failed exactly if the first that cannot be got past is missing, expired, terminated, in a queue error or unknown, unloadable exactly if it does not load, met exactly if all are completed, and otherwise waited for |
| `TaskStore.SurveyResults` | processor.go:88-93 | If wanted, exactly the results stored with the completed dependencies visited are added |
| `Lineage.LineageFacts` | client.go:310-375 | In any lineage tries equals the outcomes recorded, stays within a positive limit, identity and queue never change, and a result exists exactly for a completed task |
| `Lineage.TriesGrowByOutcome` | processor.go:326-365 | Stored tries change by one at a recorded outcome and otherwise not at all |
| `Lineage.OutcomeStates` | client.go:333-375 | A recorded outcome is completed with a result, terminated, or a failure, and a failure is expired exactly if its tries are the queue's limit and otherwise to be retried |
| `Lineage.FinalLeftOnlyByRetry` | processor.go:149-162 | Completed, Expired and Unreachable are left only by a manual retry |
| `Lineage.ActiveMarksAreSpaced` | processor.go:150-153 | Two active marks with neither outcome nor retry between them are at least MaxRunTime apart |
| `Lineage.TakeoverIsLate` | processor.go:149-162 | After an active mark without outcome or manual retry, a lineage that goes on to another mark has its very next version as a mark at least MaxRunTime later |
| `TaskHistory.LinearHistory` | storage.go:158-201 | In every run, deletions and retries included, each stored task's versions form one line in which each follows from its immediate predecessor |
| `TaskHistory.AttemptAccounting` | processor.go:173-180 | In every run stored tries equals the outcomes recorded and never exceeds a positive MaxTries, and a result is stored exactly for a completed task |
| `TaskHistory.FailuresAreRetried` | client.go:360-375 | In every run a stored failed attempt is expired if it used up the queue's tries and to be retried if it did not |
| `TaskHistory.AbsorbingStates` | processor.go:155-162 | In every run the version after a final one was written by a manual retry, and a final version without later retry is the last and stored one |
| `TaskDeadlines.StartsInTime` | processor.go:164-180 | In every run, whenever a handler starts, its worker had checked the version it starts from at a step of the run, not after that version's deadline and with tries left |
| `TaskExclusion.HandlersExclude` | processor.go:135-203 | In every run, with retries, deletions, discards and any number of workers holding the item: while a handler's version is on the task's record without a manual retry after it and its outcome is not saved, no other handler for the task starts before its MaxRunTime is over |
| `TaskRemoval.NoResurrection` | storage.go:167-187 | From the moment a task is gone until one is created under its id, no step of anyone stores it again or starts its handler, not even enqueueing any version ever stored with its remembered sequence |
| `TaskDependencies.StartedMeansCleared` | processor.go:182-200 | If neither a task nor its dependencies are retried by hand, deleted or discarded, whatever happens to others, its starting handler has all dependencies completed at that moment and, if wanted, exactly their stored results, or its item was once reported as not created |
| `TaskDependencies.DependencySafety` | processor.go:68-133 | If moreover the task itself is enqueued once and a failed publish of it left no item, its starting handler always has all dependencies completed and, if wanted, exactly their ids with the results stored for them |
| `TaskDependencies.QueueErrorSkipsDependencies` | storage.go:242-274 | A run where a publish reported as failed had stored its item and the handler starts although the parent does not exist |
| `TaskDependencies.ClearedExactly` | processor.go:182-193 | For every start with the task and its dependencies so spared: dependencies are completed and results complete if and only if the task has none, its record shows no failed enqueueing, or they are completed and wanted results are present |
| `TaskQueue.NoStrandedWork` | storage.go:203-279 | With crashes, retries also of a running task, deletions, discards, failing publishes and anything happening to other tasks, a task that is new, to be retried or active has an item or is being enqueued, if its own saves fail only by the sequence check, its item is not handed out while a worker is busy with it and not replaced while its holder may still take the task up |
| `TaskQueue.NoStrandedWaiting` | processor.go:99-133 | A blocked task as well has an item, is being enqueued, or a worker is about to record it as unreachable, if moreover no worker crashes between terminating the item and that record |
| `TaskQueue.OutlivedLeaseStrandsWork` | processor.go:362-371 | For every client, a run where an item is handed out twice and the task ends active with no item and nobody working on it |
| `TaskQueue.LostSaveStrandsWork` | storage.go:227-230 | For every client, a run where the answer to the first store is lost and the stored task never gets an item |
| `TaskQueue.ReplacedItemStrandsWork` | storage.go:232-279 | For every client, a run with no time passing and no save lost where a retry replaces an item whose holder later takes the task up, and the task ends active with no item |
| `TaskQueue.BrokenOffStrandsWork` | processor.go:102-106 | For every client, a run where a worker crashes after terminating the item of a task with a missing parent, which stays blocked with no item |
| `TaskQueue.NeverStrandsExactly` | processor.go:362-371 | For every client, no run strands a task, whatever happens to others, if and only if its saves are not lost, its item is not handed out twice nor replaced under a holder that may still take it up and, for a blocked task, no worker breaks off giving it up |
| `Storage.TaskStorage.SaveTaskState` | storage.go:158-201 | A save lands exactly if the expected last sequence matches and the request arrives; the new sequence is remembered once the answer was read, also when the event then fails and the save with it |
| `Storage.TaskStorage.LoadTaskByID` | storage.go:571-595 | Loading returns the last version with its sequence, reports absence, or fails otherwise |
| `Storage.TaskStorage.DeleteTaskByID` | storage.go:555-569 | Deleting removes the message it read, reports whether there was one, and spares what was stored between reading and deleting |
| `Storage.TaskStorage.EnqueueTask` | storage.go:215-279 | Enqueueing refuses other states, saves before publishing, records a queue error on the version just stored when the publish is reported as failed, and leaves the task with the sequence of its last answered save |
| `Storage.EnqueueOutcome` | storage.go:215-230 | Which tasks are refused, when the store is changed and to what, and that an item is added only after an answered save |
| `Storage.PublishOutcome` | storage.go:232-279 | Success is reported exactly if the item is there and was reported so; otherwise the version just stored is marked as in a queue error with the reason, whether or not the item is there |
| `Storage.TaskStorage.RetryTaskByID` | storage.go:203-213 | A retry is the enqueueing of the loaded task, changed only in its state and result; a task that is missing or does not load changes nothing |
| `Processor.Client.SetTaskActive` | client.go:310-316 | The task changes exactly in state, last try and error; on success that version is stored under the newest sequence |
| `Processor.Client.SaveOrDiscardIfDesired` | client.go:318-331 | A task in a configured state is gone afterwards, any other is stored exactly if its sequence is current and the request arrives; other tasks stay |
| `Processor.Client.SetTaskSuccess` | client.go:333-344 | The task becomes completed with the handler's payload as its result, no error, and nothing else changed |
| `Processor.Client.HandleTaskTerminated` | client.go:346-352 | The task becomes terminated with the error given and nothing else changed |
| `Processor.Client.HandleTaskExpired` | client.go:354-358 | Recording an expiry changes the state only |
| `Processor.Client.HandleTaskError` | client.go:360-375 | The task becomes unreachable for failed dependencies, expired exactly if its tries equal the limit of its own queue, and otherwise to be retried, with the error given |
| `Processor.TaskProcessor.constructor` | processor.go:50-66 | A new processor has all its tokens in the limiter |
| `Processor.TaskProcessor.LoadDependencies` | processor.go:68-97 | The loop reports failed, missing, not loaded or ready exactly as the stored states of the dependencies demand, with the results collected until it ends |
| `Processor.TaskProcessor.ProcessDependencies` | processor.go:99-133 | When a task may start, when it becomes unreachable and which of the two failures is reported |
| `Processor.TaskProcessor.ProcessMessage` | processor.go:135-203 | The effect on store and queue for every exit, and that each exit accounts for the token |
| `Processor.StartsExactly` | processor.go:135-203 | A handler starts exactly for a task that loads, is not final, not active within its window, not past its deadline, not out of tries and, if blocked, has all dependencies completed, with the mark stored and answered; what is then stored |
| `Processor.NotStartedMeans` | processor.go:135-180 | The item of a missing or final task is taken off the queue and nothing else happens, one of a recently active task stays, and a task past its deadline or out of tries is stored as expired or discarded |
| `Processor.BlockedMeans` | processor.go:99-133 | A blocked task with a hopeless dependency loses its item and is stored as unreachable or discarded; one that has to wait is left alone |
| `Processor.TaskProcessor.Handle` | processor.go:289-372 | One more try and, per outcome, completed with the payload, terminated, expired at the queue's limit or to be retried; the item is gone except after a failure; the token returns |
| `Processor.TaskProcessor.ProcessNext` | processor.go:245-287 | One turn of the poll loop is one step of the token machine after taking a token: the token is kept exactly when the poll stops, and otherwise returned or left to a handler |
| `Processor.TokenConservation` | processor.go:245-293 | In every reachable state limiter, running handlers and the loop's token add up to the concurrency, so a return never blocks and handlers never exceed it |
| `Uninterrupted.ProcessAlone` | processor.go:135-203 | processMessage without interference is a run of one worker's steps, ending in a running handler exactly when it starts one |
| `Uninterrupted.HandleAlone` | processor.go:289-372 | handle without interference is a run of one worker's steps |
| `Uninterrupted.ResolveAlone` | processor.go:68-97 | Visiting parents one step at a time reaches the verdict of the survey made in one go |
| `Uninterrupted.EnqueueAlone` | storage.go:215-279 | EnqueueTask without interference is a run of one producer's steps |
| `Mux.ChainIsTransparent` | mux.go:58-65 | Bundling consecutive middleware with Chain gives the same handler |
| `Mux.FullMeans` | mux.go:175-184 | A route's chain is the outermost layer of one pass over the global middleware in order and then the route's, each applied to the next layer, around the handler |
| `Mux.LayersAreUnique` | mux.go:175-184 | There is only one such layering |
| `Mux.DispatchIsDetermined` | mux.go:93-108 | Dispatch by longest registered prefix has at most one answer, whatever the list's order among equal lengths |
| `Mux.BuiltMeans` | mux.go:145-171 | The table built by a history of calls has a route exactly for the registered types, the first registration winning, and all middleware in Use order |
| `Mux.OrderIsIrrelevant` | mux.go:116-118 | Histories whose first registrations agree, in any order, and that use the same middleware, before or after, build the same table |
| `Mux.Replay` | mux.go:122-171 | A router on which a history of calls was made, refused ones included, routes as the table of that history |
| `Mux.SortByLength` | mux.go:166-168 | The list is a permutation ordered by descending length of type |
| `Mux.Router.BuildChain` | mux.go:175-184 | The chain built is that layering's outermost layer: global middleware outside, the route's inside, none skipped |
| `Mux.Router.Handler` | mux.go:93-108 | Lookup then scan yields the full chain of the longest registered prefix, or nothing exactly when no registered type is a prefix |
| `Mux.Router.Use` | mux.go:122-138 | Middleware is appended and every cached chain rebuilt, or on a nil nothing changes |
| `Mux.Router.HandleFunc` | mux.go:145-171 | A new route is added with map, list and caches coherent; nil and duplicates change nothing |
| `Idempotency.LookupAnswersHistory` | httpserver/tasks.go:55-81 | After any calls under a clock that does not go back, a lookup answers as the full history would, so no eviction changes an answer |
| `Idempotency.IdempotencyStore.LookupKey` | httpserver/tasks.go:55-68 | A lookup answers the latest store still valid and drops only an expired entry |
| `Idempotency.IdempotencyStore.StoreKey` | httpserver/tasks.go:70-81 | A store purges exactly the expired entries and keeps refining the history |
| `RetryPolicy.LinearPolicy` | retrypolicy.go:109-125 | With 64-bit wrap-around modelled nothing overflows; entries start at the lower bound, never decrease, stay in bounds, and the last misses the upper bound by exactly one step plus the remainder |
| `RetryPolicy.IntervalsAreEven` | retrypolicy.go:120-123 | Entries start at the lower bound and grow by the same whole step |
| `RetryPolicy.DurationBounds` | retrypolicy.go:83-94 | With d the n-th interval, the last for later tries, the duration is d times the factor plus the draw to the nearest millisecond, or the first interval where that is nothing; it is positive and at most d * (1 + factor) plus half a millisecond, or the first interval |
| `RetryPolicy.JitterBounds` | retrypolicy.go:127-135 | Jitter is the interval times the factor plus the draw, in whole milliseconds, off by at most half of one and the truncation |
| `RetryPolicy.PolicyDuration` | retrypolicy.go:83-135 | Both composed: the bounds hold for every linear policy with positive bounds, given in either order |
| `Signature.Base64RoundTrip` | task.go:243-243 | The payload's base64 form, section 4 of RFC 4648, decodes to the payload and has no colon |
| `Signature.Base64Splits` | task.go:243-243 | Whole groups of three bytes are encoded one by one whatever follows |
| `Signature.QuartetIsBaseSixtyFour` | task.go:243-243 | The four symbols of a group are the six-bit digits of its three bytes, high ones first |
| `Signature.SymbolsFollowAlphabet` | task.go:243-243 | Symbols follow table 1 of RFC 4648 |
| `Signature.Base64Padding` | task.go:243-243 | One or two bytes left over make a group padded with an equals sign per byte missing |
| `Signature.MessageLayout` | task.go:233-246 | There is a message exactly for a task with a queue: its seven fields in order, the deadline as its own number or zero, joined by colons |
| `Signature.MessageDecodes` | task.go:233-246 | If id and queue have no colon the message decodes to id, queue, type, limit, creation time, the deadline or zero, and payload, whatever the type contains |
| `Signature.MessageIsInjective` | task.go:233-246 | A task without ambiguous colons has the message of another validly named task if and only if they agree on every field, deadlines included, where only a missing one and one at the epoch are not told apart |
| `Signature.ColonsMakeItAmbiguous` | asyncjobs.go:81-88 | A colon in the id after its first character, in the type before its last, or cutting the queue gives a validly named twin with the same message and another queue and id or type |
| `Signature.MessageIsUniqueExactly` | task.go:233-246 | For every validly named task, its message determines the covered fields if and only if there is no such colon |
| `Signature.SignaturesKeepVerifying` | client.go:121-130 | In every run any check of message and signature decides the same for the stored version as for the first |
| `Signature.RetryKeepsMessageExactly` | storage.go:203-225 | A retry keeps the message if and only if the queue is the same |

## Left out

- NATS and JetStream calls, JSON, headers and stream configuration: only the semantics of the bucket, the task store and the queue are modelled.
- Ed25519, key files and hex: verification is any function of message and signature.
- Metrics, logging and event contents.
- HTTP handlers, error mapping, CLI, generators, RequestReply and ExternalProcess handlers: a handler is any outcome.
- Cron and schedule bookkeeping: only the leader gate is modelled.
- The start-up splay of the election, and an election callback running concurrently with the next tick: callbacks are taken as part of the tick that fires them.
- 64-bit overflow of revisions, sequences and tries, of nanosecond timestamps, and of the float conversion in jitter.
- MarkInProgress: lease extension is not a step of its own; any worker may be handed any queued item at any time in all theorems but NoStrandedWork, which speaks of items handed out rather than of time.
- The queue's own delivery limit and message limits: items are never dropped by the queue itself.
- The duplicate window of the queue: a duplicate is one of the two ways a publish can be reported as failed.
- Enqueueing an in-memory task whose fields the caller changed after it was stored: only versions once stored are enqueued again.
- The deadline at the moment of the active mark: it is checked before, as in the code, and may have passed by then; StartsInTime speaks of the check.
- Error texts: the message recorded for failed dependencies is one constant.
- Purging of the task store by age: a removal step may take any task at any time.
- Clients that differ: all workers and producers share one configuration, so a processor with other discard states or another run time limit than its peers, and a retry into another queue, are not steps of the task system; RetryKeepsMessageExactly says what the latter does to a signature.
- Discarding unreachable tasks: NoStrandedWaiting and NeverStrandsExactly for blocked tasks exclude it, as the client's options do.
- DependencySafety: assumes that nobody enqueues the task twice, because a second enqueueing reported as duplicate also leads to the queue error state while the first item exists; ClearedExactly covers those runs.
- Processor.TaskProcessor.ProcessNext: one turn of an endless loop; the loop itself, with handlers finishing in between, is the token machine of TokenConservation.
