# CronPilot and cron-webhook, modelled in Dafny

A verification project kept beside the repository. `dafny verify dfyconfig.toml` checks all of it.

## What is modelled

**CronPilot as one transition system.** The worker's in-memory scheduler, the shared `jobs` and `executions`
tables, and every start of a job in either process, from the cron callback or trigger handler that begins it to
the goroutine that finishes its row. A step is one SQL statement, one critical action of a goroutine or one
clocked event of the environment, and steps of different goroutines interleave freely. The Forbid check, the
Replace flag, the `INSERT`, each poll of the watcher, the return of `doRequest`, the closing `UPDATE` and the
`last_run_at` stamp are separate steps; the Replace callback's locked section is three (enter the mutex, flag,
store the context and leave), and a callback may take its turn after `sync` has dropped its entry, which is how
ghost entries (zero cron ID, zero stamp) arise. Reads of the Forbid check and of the watcher may fail.

| module | content |
|---|---|
| Domain | jobs, execution rows, policies, outcomes of a call and their texts |
| Tables | the two tables, the SQL statements as functions and as methods of a live database |
| Scheduler | the worker's memory, one pass of `sync`, the Replace section; classes `Cron` and `Scheduler` updated in place |
| Protocol, Invariants | states, events, behaviours; the invariant and its preservation |
| Safety, Overlap, Provenance, Freshness | theorems over whole behaviours |
| Executor | cancellation terminates; `run`, the watcher, the callback and the trigger handler as methods that give way to all other steps at every point |
| Sharpness | behaviours that reach the overlap bounds and show what the code does not promise |
| LiveMirror, Sessions | cron-webhook: server, broker, browser; one connection from its snapshot to its subscription |
| Coherence, SlowJobs, Broker | exactly when one page's requests and slow jobs agree with the server; what its queue loses |
| Csv, Timeline, SplitSql, Migrations | the report printers and the start-up schema scripts |

Every imperative member of the source is a method proved against a function of the old state; the theorems are
about those functions and about behaviours built from them.

## What the proofs found

These are properties the code does not have, or has only under a condition. The lemmas named give the exact
condition, a behaviour that shows the failure, or both.

- **Forbid is not mutual exclusion, and Replace does not leave at most one run unasked.** The check or the flag and
  the `INSERT` are separate, so starts whose windows overlap all run. The bounds are the number of windows that
  overlap at once (`ForbidLimitsOverlap`, `ReplaceLimitsOverlap`), and for every number there is a behaviour that
  reaches it (`ForbidBoundIsReached`, `ReplaceBoundIsReached`).
- **The admin trigger ignores the policy**: it reads the job without `concurrency_policy`. With it a Forbid job runs
  twice at once though no two starts are ever in the window together (`AdminTriggerBreaksForbid`).
- **An edit that falls between the query of `sync` and the registration can be lost.** `scheduledAt` is the clock at
  registration, although its comment (scheduler.go:19) says it tracks `updated_at`. A pass is right if and only if
  every registration it keeps is current (`ReconcileRefines`); a registration made from the older row and stamped
  after the edit (`EditDuringSyncIsLost`) stays through every pass that reads the job's row, until the job is edited
  again (`StaleForGood`).
- **A second `sync` over the same rows is silent if and only if no late Replace callback wrote a ghost in between**
  (`SecondSyncIsSilentIffNoGhost`), and one can (`GhostBreaksIdempotence`): the pass then cancels the run the
  callback is about to start.
- **A cancelled run may be recorded as a success**, when the response had already arrived (`CancelledCanSucceed`);
  the converse holds (`ReplacedRowsWereAskedToStop`).
- **A page's request list is right exactly as far as its snapshot was the store at its subscription**
  (`RequestListExact`, `RequestListCoherent`). A request captured and broadcast between the two never shows on that
  connection (`CaptureInTheGapIsLost`, `GapIsReachable`). This takes broadcasts in the order of the changes; two that
  cross reorder the page (`CrossedBroadcastsReorder`).
- **A page's slow jobs are right exactly when no listed job ended before the subscription and no unlisted one that
  was announced before it still runs** (`SlowJobsCoherent`); a job that ends in the gap stays on the page
  (`EndInTheGapIsLost`, `EndInTheGapIsReachable`).
- **The CSV export reads back if and only if no free-text field has a double quote**: `csvEsc` quotes as rules 5 and
  6 of section 2 of RFC 4180 ask but does not double quotes (rule 7) (`RoundTripIffClean`, `ReportRoundTrip`), and
  two different failed executions can print as the same line (`QuotesCollide`).
- **The timeline leaves out exactly the executions dated `days` days ago** that its own query returns
  (`TimelineConserves`), and there can be some (`OldestDayIsLeftOut`).
- **The worker alone never completes the schema**: `users` is the API's (`WorkerAloneStopsShort`).

## Model

| member | source | states |
|---|---|---|
| Safety.RowsMatchRuns | apps/cronpilot-worker/executor/executor.go:45-108 | in every state of every behaviour, each `running` row has exactly one run in flight, and each run in flight has its row `running` for its own job, or its job is deleted |
| Safety.RowsOnlyMoveForward | apps/cronpilot-worker/executor/executor.go:94-105 | between any two states of a behaviour: a row keeps its job, origin and start time, a row that left `running` never changes again, `cancel_requested` is never taken back and is first set on a running row, a deleted row never comes back |
| Safety.RowsWellFormed | apps/cronpilot-worker/executor/executor.go:84-107 | in every state: running rows carry no completion data, finished rows have an error or a response but not both, success exactly when the code is below 400, and `last_run_at` is the completion time of a responded row of that job |
| Safety.RegistrationsMatchEntries | apps/cronpilot-worker/scheduler/scheduler.go:103-145 | whatever passes and late callbacks interleave, each live cron ID is held by exactly one entry, and every other entry is a ghost with zero ID and zero stamp |
| Safety.OneLiveReplaceContext | apps/cronpilot-worker/scheduler/scheduler.go:159-173 | every context the Replace branch made is cancelled or stored in its job's entry, so two scheduled Replace starts of one job never both have a live context |
| Invariants.InvStep | apps/cronpilot-worker/scheduler/scheduler.go:94-177 | every step of every goroutine, handler and pass keeps the joint invariant of tables, runs, mutex, entries and contexts |
| Invariants.InvAlways | apps/cronpilot-worker/executor/executor.go:45-108 | that invariant holds in every reachable state |
| Invariants.TablesStep | apps/cronpilot-api/handler/jobs.go:86-184 | every step keeps the tables well formed and moves rows only forward |
| Invariants.OwnedStep | apps/cronpilot-worker/executor/executor.go:49-54 | no step leaves a running row without a run in flight |
| Invariants.RowsStart | apps/cronpilot-worker/executor/executor.go:49-54 | a row becomes running only by the `INSERT` of a run that owns it |
| Invariants.OtherTaskStep | apps/cronpilot-api/executor/executor.go:40-103 | a step of one goroutine never breaks what another relies on: its row, its context, its hold of the mutex |
| Invariants.SyncStep | apps/cronpilot-worker/scheduler/scheduler.go:94-145 | a pass keeps entries, registrations and contexts consistent while runs are in flight |
| Invariants.LockedWorkerStep | apps/cronpilot-worker/scheduler/scheduler.go:160-172 | so do both ends of the Replace section, also when the entry is gone by then |
| Protocol.OthersLeaveTask | apps/cronpilot-worker/executor/executor.go:28-36 | a step changes the goroutine that takes it and no other |
| Overlap.ForbidLimitsOverlap | apps/cronpilot-worker/scheduler/scheduler.go:152-157 | if at most k starts of an always-Forbid job are between check and `INSERT` at once, at most k of its rows ever run, across both processes; k=1 is mutual exclusion |
| Sharpness.PendingStartsAllRun | apps/cronpilot-worker/executor/executor.go:28-58 | both bounds are sharp from any state: however many starts of a job are in the window, a behaviour continues to all of their rows running, none flagged |
| Sharpness.ForbidBoundIsReached | apps/cronpilot-api/handler/jobs.go:171-182 | for every k and from any tables at rest, a behaviour meets every hypothesis of the Forbid bound with k and ends with k rows running |
| Sharpness.ReplaceBoundIsReached | apps/cronpilot-api/handler/jobs.go:177-182 | likewise for the Replace bound: k running rows that nobody has asked to stop |
| Sharpness.AdminTriggerBreaksForbid | apps/cronpilot-api/handler/admin.go:267-276 | a Forbid job with never two starts in the window at once, run twice at once by a trigger and an admin trigger |
| Sharpness.CancelledCanSucceed | apps/cronpilot-worker/executor/executor.go:76-105 | a behaviour in which a run whose row was flagged and whose watcher cancelled its request ends as a success |
| Sharpness.ForbidCanOverlap | apps/cronpilot-api/handler/jobs.go:172-182 | two manual triggers whose checks both read no running row run a Forbid job twice, from any tables at rest |
| Overlap.ReplaceLimitsOverlap | apps/cronpilot-worker/scheduler/scheduler.go:159-173 | for an always-Replace job, unflagged running rows plus starts between flag and `INSERT` never exceed the number of such windows that overlap |
| Overlap.InsertCounts | apps/cronpilot-worker/executor/executor.go:49-54 | an `INSERT` trades one pending start for one running, unflagged row, never two |
| Overlap.NoNewPending | apps/cronpilot-worker/executor/executor.go:38-43 | while a row of an always-Forbid job runs and its checks read the table, no step brings a new start into the window |
| Overlap.ForbidStep | apps/cronpilot-worker/scheduler/scheduler.go:152-157 | every step keeps this: as long as some row of the job runs, running rows and starts in the window together are at most k |
| Overlap.CarriedAlways | apps/cronpilot-worker/scheduler/scheduler.go:137-143 | rows, snapshots, registrations and starts of a job all carry the policy its row always had |
| Provenance.ReplacedRowsWereAskedToStop | apps/cronpilot-worker/executor/executor.go:89-99 | a row reported as replaced was, earlier in the behaviour, flagged by a Replace start of its job while running, or it is a scheduled Replace run whose context a later start of its job or a removing or rescheduling pass cancelled |
| Provenance.OnlyTheFlagStopsOthers | apps/cronpilot-worker/executor/executor.go:60-82 | runs launched under Allow or Forbid, or by hand, are interrupted only by the flag on their own row |
| Provenance.ContextCancelled | apps/cronpilot-worker/scheduler/scheduler.go:105-132 | a context turns cancelled only by the Replace section of its own job or by a pass that drops its own job's entry |
| Provenance.RowBecomesReplaced | apps/cronpilot-worker/executor/executor.go:89-97 | the replacement text is written only by the closing `UPDATE` of a run whose call was cancelled |
| Domain.OnlyCancelledIsReplaced | apps/cronpilot-worker/executor/executor.go:90-93 | no other error can produce that text: the prefixes differ from it |
| Executor.CancellationTerminates | apps/cronpilot-worker/executor/executor.go:62-100 | once a running row is flagged, its run has at most three steps of its own left before the row is finished or gone, whatever the others do |
| Executor.AskedUntilOver | apps/cronpilot-worker/executor/executor.go:62-100 | over any stretch of a behaviour the run's own steps are bounded by the decrease of the measure, until the row is over for good |
| Executor.AskedCanStep | apps/cronpilot-worker/executor/executor.go:68-84 | a flagged run is never stuck: one of its own steps is possible |
| Executor.WatcherStops | apps/cronpilot-worker/executor/executor.go:62-71 | after `run` returns its watcher can stop at once, and no step undoes the return or starts it again |
| Executor.System.Run | apps/cronpilot-worker/executor/executor.go:45-108 | with other steps at every point: the row ends with the job and origin of the start, the given start time and the time since then as its duration, and the status, response or error text of the outcome, or it went with its job; after a response `last_run_at` is that completion time; the outcome is the server's or a cancellation; a refused `INSERT` ends the run |
| Executor.System.Watch | apps/cronpilot-worker/executor/executor.go:65-82 | through any steps of others, at any number of ticks, the run keeps its row and its job and stays in its request; the watcher is still watching only if its last read failed or found no flag |
| Executor.System.Record | apps/cronpilot-worker/executor/executor.go:86-107 | the row keeps the recorded outcome through later steps and the `last_run_at` stamp |
| Executor.System.Callback | apps/cronpilot-worker/scheduler/scheduler.go:149-178 | a cron callback, however late: started under Forbid only when a good read found no running row; started under Replace with a live context stored in the job's entry; the registered job's own fields and the origin `schedule` throughout |
| Executor.System.TriggerJob | apps/cronpilot-api/handler/jobs.go:162-184 | 404 exactly for a missing or foreign job, and then nothing happens; 409 only under Forbid with a running row; after Replace every running row is flagged; the admin form knows neither; what starts is the job's own request, by hand |
| Executor.System.Others | apps/cronpilot-worker/executor/executor.go:28-36 | any sequence of others' steps keeps the invariant, leaves this run alone and moves rows only forward |
| Scheduler.ReconcileRefines | apps/cronpilot-worker/scheduler/scheduler.go:97-145 | from any entries, ghosts included, and any row order: a pass ends with exactly one registration per row that parses, running that row's fields, if and only if each registration it keeps is current |
| Scheduler.ReconcileLinked | apps/cronpilot-worker/scheduler/scheduler.go:103-145 | a pass leaves entries and live registrations in bijection |
| Scheduler.StoreLinked | apps/cronpilot-worker/scheduler/scheduler.go:160-172 | the late callback may leave a ghost, never a dangling or doubled registration |
| Scheduler.ReconcileEffect | apps/cronpilot-worker/scheduler/scheduler.go:116-143 | row by row against the worker the pass started from: kept as it was, registered afresh with its stamp, or absent |
| Scheduler.ReconcileCarries | apps/cronpilot-worker/scheduler/scheduler.go:105-132 | a pass cancels exactly contexts of entries it removes or replaces, and loses none uncancelled |
| Scheduler.ReconcileSources | apps/cronpilot-worker/scheduler/scheduler.go:134-143 | every registration after a pass was there before or is that of a row it read |
| Scheduler.NoGhostAfterReconcile | apps/cronpilot-worker/scheduler/scheduler.go:119-143 | no ghost outlives a pass |
| Scheduler.UnchangedIffSettled | apps/cronpilot-worker/scheduler/scheduler.go:103-145 | a pass changes nothing in the worker if and only if no entry lacks a row, none is older than its row, and no missing one would now parse |
| Scheduler.ReconcileSettles | apps/cronpilot-worker/scheduler/scheduler.go:119-143 | after a pass whose clock is not behind the rows there is nothing left to do |
| Scheduler.Scheduler.Sync | apps/cronpilot-worker/scheduler/scheduler.go:94-145 | the locked part of `sync`, on the fields in place, is the pass the theorems are about |
| Scheduler.Scheduler.RemoveInactive | apps/cronpilot-worker/scheduler/scheduler.go:103-113 | in any iteration order the first loop drops exactly the entries without an active row |
| Scheduler.Scheduler.PlaceRow | apps/cronpilot-worker/scheduler/scheduler.go:116-144 | one turn of the second loop, by cases on the entry and the parse: what is registered under which expression, what is cancelled, and the failed-parse branch that forgets the entry |
| Scheduler.ExprReadsBack | apps/cronpilot-worker/scheduler/scheduler.go:135 | the registered expression is `CRON_TZ=`, the row's zone, a space and its cron fields; cut at the first space it gives both back if and only if the zone has no space in it |
| Scheduler.Scheduler.Unschedule | apps/cronpilot-worker/scheduler/scheduler.go:126-132 | cancel, remove and delete touch one entry, its registration and its context only |
| Scheduler.Scheduler.CancelPrevious | apps/cronpilot-worker/scheduler/scheduler.go:161-164 | the entry read (zero if absent) and its context cancelled, nothing else |
| Scheduler.Scheduler.KeepContext | apps/cronpilot-worker/scheduler/scheduler.go:169-171 | a fresh context is stored with the entry read earlier, also over a deleted one |
| Scheduler.Cron.AddFunc | apps/cronpilot-worker/scheduler/scheduler.go:137-141 | an expression that does not parse registers nothing; otherwise one registration is added, under a non-zero ID that was not in use as long as IDs only count up |
| Freshness.SyncMatchesItsRows | apps/cronpilot-worker/scheduler/scheduler.go:94-145 | if edits are dated after the stamps they must beat, every pass of every behaviour leaves cron exactly as the rows it read say |
| Freshness.SyncMatchesTable | apps/cronpilot-worker/scheduler/scheduler.go:57-145 | with no edit between query and registration and no row lost to a scan error, cron equals the job table itself: each live registration runs an active job's id, request and policy under its own zone and fields, and each active job that parses has exactly one |
| Freshness.PausedIsUnscheduled | apps/cronpilot-worker/scheduler/scheduler.go:103-113 | a job paused or deleted before a query, and not touched again until then, has no live registration after the pass |
| Freshness.ResumedIsScheduled | apps/cronpilot-api/handler/jobs.go:146-160 | a job resumed or created before a query that reads it, and not touched again until then, has one after the pass if its expression parses |
| Freshness.EditReachesCron | apps/cronpilot-api/handler/jobs.go:109-121 | when edits are dated after the stamps they must beat, a job edited before a query that reads it is registered after the pass with the edit's request, zone and fields, and with nothing older |
| Freshness.RowReachesCron | apps/cronpilot-worker/scheduler/scheduler.go:116-143 | under the same hypothesis the pass leaves each row it read registered as it stands in the table at the query, if it parses, and in no other way |
| Freshness.EditDuringSyncIsLost | apps/cronpilot-worker/scheduler/scheduler.go:143 | without that hypothesis, on any tables at rest: an edit between query and registration leaves the job registered with its old fields under a stamp that hides it |
| Freshness.StaleForGood | apps/cronpilot-worker/scheduler/scheduler.go:119-123 | such a registration stays through any number of passes that read the job's row, whatever else happens, until the job is edited, paused or deleted |
| Freshness.RunsLeaveRows | apps/cronpilot-worker/executor/executor.go:106 | only the job endpoints change what `sync` reads; runs and `last_run_at` leave `updated_at` and every queried column alone |
| Freshness.FreshAlways | apps/cronpilot-api/handler/jobs.go:110-113 | if edits are dated after the stamps they must beat, in every state each registration runs its row's fields or has an older stamp than its row |
| Freshness.SecondSyncIsSilentIffNoGhost | apps/cronpilot-worker/scheduler/scheduler.go:119-145 | of two successive passes over the same rows the second changes no entry, cron ID, cancel function or run if and only if no callback wrote a ghost in between |
| Freshness.GhostBreaksIdempotence | apps/cronpilot-worker/scheduler/scheduler.go:160-172 | a behaviour in which a late callback writes a ghost between two passes over the same rows, and the second pass removes it and cancels its run |
| Freshness.QueriesAgree | apps/cronpilot-worker/scheduler/scheduler.go:60-92 | two complete queries with no edit in between return the same rows, whatever ran meanwhile |
| Tables.Database.EditJob | apps/cronpilot-api/handler/jobs.go:109-121 | both edit endpoints: 404 exactly for a missing or foreign row and then no change; otherwise request, expression and zone are the ones given, the admin form leaves the policy alone, `updated_at` moves, status and `last_run_at` do not, and no other row changes |
| Tables.Database.ChangeStatus | apps/cronpilot-api/handler/jobs.go:146-160 | pause and resume apply only from the other status; then the row has the new status and `updated_at` and nothing else changed; otherwise nothing changes |
| Tables.Database.DeleteJob | apps/cronpilot-api/handler/jobs.go:126-136 | the owner's delete removes the job with all its executions, and no others |
| Tables.Database.CreateJob | apps/cronpilot-api/handler/jobs.go:85-91 | the row as given is there under an id no job of well-formed tables has, and every other row is as it was |
| Tables.Database.HasRunning | apps/cronpilot-worker/executor/executor.go:38-43 | true exactly when the job has a running row |
| Tables.Database.RequestCancel | apps/cronpilot-worker/scheduler/scheduler.go:165-168 | in any scan order, exactly the job's running rows are flagged |
| Tables.FinishExecKeeps | apps/cronpilot-worker/executor/executor.go:94-105 | the closing `UPDATE` of a running or deleted row keeps the tables well formed and resurrects nothing |
| Tables.StampLastRunKeeps | apps/cronpilot-worker/executor/executor.go:106 | so does the stamp, when a responded row completed then |
| Tables.DeleteJobsKeeps | apps/cronpilot-api/db/schema.sql:34-46 | the cascade leaves no execution without its job and no dangling `last_run_at` |
| Tables.FlagRunningKeeps | apps/cronpilot-api/handler/jobs.go:178-180 | flagging changes no finished row |
| Tables.InsertExecKeeps | apps/cronpilot-worker/executor/executor.go:49-54 | a new row of an existing job disturbs no other |
| Coherence.RequestListExact | apps/cron-webhook/main.go:176-203 | for one connection, whatever others do, with store changes broadcast in order and room in its queue: at every settled moment the caught-up page's first 100 requests are the store if and only if its snapshot, plus what was owed at the subscription, agrees with the store of the subscription on as many requests as the store can still hold of it |
| Coherence.RequestListCoherent | apps/cron-webhook/main.go:176-203 | subscribing while nothing is owed, the page is right at every settled moment if and only if its snapshot is the store of its subscription, whatever it held before |
| Coherence.QuietGap | apps/cron-webhook/main.go:177-192 | which is so when the store does not change in between |
| Coherence.ExpectedChanged | apps/cron-webhook/public/index.html:434-443 | what the page will show once everything sent and owed has reached it follows the store's changes one by one |
| Coherence.StoreChanged | apps/cron-webhook/main.go:47-68 | the bounded store is the newest 100 of its unbounded history of changes |
| Coherence.CaptureInTheGapIsLost | apps/cron-webhook/main.go:177-192 | in every behaviour, a request captured and broadcast between a connection's snapshot and its subscription never shows on it, and nothing on its way would show it |
| Coherence.GapIsReachable | apps/cron-webhook/main.go:177-192 | a behaviour with such a request, and a page that differs from the store for it |
| Coherence.CrossedBroadcastsReorder | apps/cron-webhook/main.go:314-317 | with no gap and no full queue, two captures that broadcast in the other order leave the page reversed |
| SlowJobs.SlowJobsCoherent | apps/cron-webhook/main.go:222-257 | for one connection, with additions, removals and broadcasts interleaving freely and room in its queue: at every moment between broadcasts the caught-up page shows exactly the active jobs, each with its delay and start, if and only if no listed job ended before the subscription and every job running since before it was listed |
| SlowJobs.PageAlways | apps/cron-webhook/main.go:79-99 | which jobs show on the page at every moment, also between a change and its broadcast |
| SlowJobs.QuietGap | apps/cron-webhook/main.go:181-192 | the condition holds when no start or end is broadcast between listing and subscription |
| SlowJobs.EndInTheGapIsLost | apps/cron-webhook/main.go:251-257 | a listed job whose end was broadcast before the subscription shows as long as the connection lasts, though it is over |
| SlowJobs.EndInTheGapIsReachable | apps/cron-webhook/main.go:181-192 | a behaviour with such a job |
| Sessions.SubscribedWithSnapshot | apps/cron-webhook/main.go:176-193 | at its subscription every page has an empty queue and will show exactly its snapshot, whatever it showed before |
| Sessions.SubscriptionHasSession | apps/cron-webhook/main.go:164-203 | every subscription of every behaviour follows a reading of the store and a listing of the slow jobs on the same connection |
| LiveMirror.PendingStep | apps/cron-webhook/main.go:124-134 | a step adds at most one message to a page's future: its broadcast, exactly when it has one and that page's own queue has room |
| LiveMirror.FillIsListing | apps/cron-webhook/public/index.html:424-432 | init rebuilds the server's slow map from any listing order: the same jobs, each with its own delay and start |
| LiveMirror.ReplayAppend | apps/cron-webhook/public/index.html:421-454 | processing a log in two parts is processing it whole |
| Broker.BrokerConserves | apps/cron-webhook/main.go:110-134 | for every subscriber from its subscription on: what it was sent then queued is an ordered subsequence of the broadcasts; sent, queued and the broadcasts that found its queue full add up to all; never more than 8 queued; nothing missing if and only if none found it full; its page has processed its socket in order |
| Broker.QueueConserves | apps/cron-webhook/main.go:128-133 | that accounting of the queue holds between any two moments of a subscription that began with an empty queue |
| Broker.SocketKeepsOrder | apps/cron-webhook/main.go:195-203 | what was on the socket and sent since is what the page has processed and what is still on it, in order, and the page is what the processed messages make of it |
| Broker.MissedNone | apps/cron-webhook/main.go:129-132 | none is counted as missed exactly when every broadcast fitted |
| Broker.Hub.Publish | apps/cron-webhook/main.go:124-134 | in any order of the clients, each subscribed channel is offered the message once and no other channel changes |
| Broker.Hub.AddClient | apps/cron-webhook/main.go:110-116 | a fresh empty channel joins |
| Broker.Chan.TrySend | apps/cron-webhook/main.go:129-132 | the select with default: appended if below capacity, else dropped and unchanged |
| Broker.Store.Add | apps/cron-webhook/main.go:47-54 | newest first, cut at 100, the new entry never lost |
| Broker.SlowStore.GetAll | apps/cron-webhook/main.go:91-99 | every active job exactly once, in no promised order |
| Broker.Page.OnMessage | apps/cron-webhook/public/index.html:421-454 | message by message: a request goes first, a clear empties, `slow_start` adds its job with its delay and start, `slow_end` removes it, `init` replaces both; this is the reducer the coherence theorems use |
| Csv.RoundTripIffClean | apps/cronpilot-api/handler/report.go:230-240 | any table reads back as itself if and only if no field contains a double quote; commas and line breaks are safe |
| Csv.ReportRoundTrip | apps/cronpilot-api/handler/report.go:210-227 | a reader of RFC 4180 that knows the nine column names and the words for status and origin gets every execution back, in order and field by field, if and only if none of the free-text fields has a double quote |
| Csv.QuotesCollide | apps/cronpilot-api/handler/report.go:222-237 | two different failed executions, nine columns each and with error texts the executor writes, that print as the same line |
| Csv.ReportCSV | apps/cronpilot-api/handler/report.go:210-227 | the printed file begins with the literal header line, is the document of the table of executions, and reads back as those executions if and only if they are free of double quotes |
| Csv.PrintRow | apps/cronpilot-api/handler/report.go:222-226 | escaping six of nine columns is enough: the line is that of a row with every field escaped |
| Csv.CsvEsc | apps/cronpilot-api/handler/report.go:230-240 | the scan quotes exactly the fields that contain a separator, quote or line break |
| Csv.FeedDocument | apps/cronpilot-api/handler/report.go:210-240 | the reader, fed a quote-free document, ends at a row start holding exactly the rows |
| Csv.ParsePays | apps/cronpilot-api/handler/report.go:230-240 | whatever a reader accepts, it has seen two quotes for each quote it returns and two for each field that needs them |
| Timeline.TimelineConserves | apps/cronpilot-api/handler/report.go:74-112 | the series totals plus the executions dated exactly `days` days ago are all executions of the window |
| Timeline.OldestDayIsLeftOut | apps/cronpilot-api/handler/report.go:82-106 | for every `now` and `days` there is an execution the query returns and the series leaves out |
| Timeline.ReportTimeline | apps/cronpilot-api/handler/report.go:92-113 | from the grouped rows the loops build `days` consecutive days ending today, each with its own counts or zeros |
| Timeline.SeriesMeans | apps/cronpilot-api/handler/report.go:75-112 | point by point: the date, counted back from today, and the successes, failures and all executions of the window that started on that UTC day |
| Timeline.IndexByDate | apps/cronpilot-api/handler/report.go:93-102 | the map holds every grouped row under its date and nothing else |
| Timeline.DaysAddUp | apps/cronpilot-api/handler/report.go:104-112 | totals of consecutive days are the count of their range |
| Timeline.PointAddsUp | apps/cronpilot-api/handler/report.go:75-78 | in each day success, failure and running make up the total |
| Timeline.SummaryAddsUp | apps/cronpilot-api/handler/report.go:38-47 | over a user's rows of well-formed tables the counters count the executions not completed, those answered below 400 and those with an error or another answer, and add up to all of them |
| Timeline.Days | apps/cronpilot-api/handler/report.go:68-71 | a number of days from 1 to 90 is taken as it is, anything else is 30 |
| SplitSql.SplitRoundTrip | apps/cronpilot-api/main.go:142-150 | a script is cut back into its statements if and only if each is non-empty, trimmed and free of `;` before a line end |
| SplitSql.SplitSQL | apps/cronpilot-api/main.go:142-150 | the loop keeps the trimmed non-empty parts in order; each is non-empty, begins and ends without white space, and has no `;` before a line end |
| SplitSql.SplitHasNoSep | apps/cronpilot-api/main.go:144 | no part contains a separator |
| SplitSql.TrimIs | apps/cronpilot-api/main.go:145 | trimming removes white space, all of it at both ends and nothing else |
| Migrations.StartUpsConverge | apps/cronpilot-api/db/schema.sql:3-55 | any number of complete start-ups of the two services, one of them the API's, in any statement-level interleaving and from any catalog on the way, end in the same tables, columns and indexes |
| Migrations.EveryStatementIsReady | apps/cronpilot-worker/db/schema.sql:3-39 | in every such interleaving each statement finds the tables, columns and function it needs |
| Migrations.WorkerAloneStopsShort | apps/cronpilot-worker/db/schema.sql:1-39 | the worker's start-ups alone never create `users` |
| Migrations.PlanInvariant | apps/cronpilot-api/main.go:110-117 | in every interleaving each start-up's statements so far stay done |
| Migrations.ApiIsGood | apps/cronpilot-api/db/schema.sql:1-55 | run in order from any catalog on the way, each API statement is ready |
| Migrations.WorkerIsGood | apps/cronpilot-worker/db/schema.sql:1-39 | so is each of the worker's |
| Migrations.ApiReachesFinal | apps/cronpilot-api/db/schema.sql:1-55 | a catalog in which all API statements are done is the final one, whoever created its tables |
| Migrations.FinalColumns | apps/cronpilot-api/db/schema.sql:3-50 | the columns of the three tables every start-up leads to |
| Migrations.JobsConstraints | apps/cronpilot-api/db/schema.sql:13-32 | which of the columns of `jobs` are unique, not null or a foreign key |
| Migrations.ScriptNeeds | apps/cronpilot-api/db/schema.sql:3-55 | what the statements need to find, exactly: the API's `jobs` needs `users`, the worker's does not, and the index on `user_id` needs the column the API adds |
| Migrations.Database.RunSchema | apps/cronpilot-api/main.go:110-117 | statements apply in order up to the first that fails, and that one was not ready |
| Migrations.Database.StartUp | apps/cronpilot-worker/main.go:44-51 | a start-up on its own never fails, and the API's completes the schema |

## Left out

- The HTTP side of `doRequest`: transport, headers, timeouts, body reading. A call ends in an arbitrary error, a cancellation (only when its context is done) or an arbitrary response.
- `applyDefaults`, `headersJSON`, request decoding and the shape of JSON answers: a job's request is an arbitrary value.
- robfig/cron's parsing and firing times: an arbitrary predicate says which expressions parse, and any live registration may fire at any moment.
- Postgres internals: each SQL statement is one atomic step; concurrent `IF NOT EXISTS` statements do not fail on each other; `updated_at` and stamps share one time line (the `TIMESTAMP` columns' time zone is not modelled).
- Crashes and restarts: nothing in the code recovers `running` rows a dead process leaves, so a behaviour starts without them.
- Failed writes: the closing `UPDATE`, the cancel flag and `last_run_at` are assumed to reach the database, and a failed query of `sync` is a pass that does not happen; failed reads of the Forbid check and the watcher are modelled.
- The text of the schema files: Migrations takes the statements as data, SplitSql takes any text; parsing SQL is not modelled, and column constraints are an enumerated value.
- Overlap.ForbidLimitsOverlap: leaves out admin triggers of the job and failed reads of its check, which start runs without any check.
- Overlap.ReplaceLimitsOverlap: leaves out admin triggers of the job, which flag nothing.
- Freshness.SyncMatchesTable: assumes the clock order of edits and stamps, which the code does not enforce; `EditDuringSyncIsLost` and `StaleForGood` show what happens without it.
- Executor.System.Watch: a bounded number of ticks is given; the real loop goes on until the run returns.
- Executor.System.Callback: a callback that meets a taken mutex returns in the model and waits in the code.
- Csv.PrintRow: assumes the formatted start time needs no quotes, as RFC 3339 times do not.
- Csv text is a sequence of characters: encodings and a carriage return outside quotes (which a reader of LF rows may take or refuse) are not modelled.
- Timeline: one fixed clock for the query and the handler, whole UTC days, no executions in the future.
- Coherence.RequestListExact: assumes broadcasts in the order of the changes and room in the page's queue for each store broadcast from the subscription on; what a page shows after a crossing or a drop is not characterised.
- SlowJobs.SlowJobsCoherent: assumes room in the page's queue for each slow_start and slow_end from the subscription on.
- The success rate and average duration of the reports, and the per-job report.
- The page's DOM, selection and rendering; the method filter and the answers of cron-webhook's other endpoints.
- Login, registration, tokens, user administration, the Kafka producer and consumer, the React front end and the deployment files.
