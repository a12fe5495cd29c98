# GoQueue: a verified model of the job-delivery protocol

GoQueue is a distributed job queue. Postgres holds the job rows and is authoritative; Redis holds
*tokens*, job ids waiting in one list per queue name or in one sorted set of run times. Workers, API
requests, the due-job loop and two recovery sweeps act on both stores without transactions, so an
actor may act on a row it read some time ago. Several instances run side by side and elect a leader
for the scheduler loops through a Postgres advisory lock.

The project models that protocol, the leader election with the scheduler's life cycle, the
WebSocket hub of the dashboard, and the listing, statistics and chart code, and proves what each of
them keeps.

## How the model is built

* `Protocol.dfy` is a step machine. Any number of actor slots take turns; each turn is one statement
  or one Redis command. Every call ends in one of three ways: done, refused without effect, or
  carried out with the reply lost. Workers may crash at any step and time passes between any two
  steps. A run is a sequence of turns; an action that does not fit where its actor stands changes
  nothing, so "for every sequence of turns" means "for every interleaving".
* A *token* of a job is an occurrence in a list, an entry in the sorted set, or the job held by an
  actor that will still put it somewhere or finish it. `Tokens.dfy` counts them and proves a
  balance for every turn; the two main safety results rest on it.
* The handlers and loops of the source are methods of classes (`Storage.PostgresStorage`,
  `Redis.RedisQueue`, `Processes.Instance`, `Lifecycle.SchedulerObject`, `Hub.HubObject`).
  `ProcessRuns.dfy` and `SlotRuns.dfy` prove that what each of them does to the stores is a run of the
  step machine by one slot, call by call and for every outcome of every call; `Outcomes.dfy` says
  what that is in terms of rows, lists and set.
* Leader election and the protocol as a whole interleave several processes; they are step machines
  over values. The hub has both forms, and its object is proved to be where the run machine leads.

## Main results

* **No lost job.** A run, with any failures and crashes, leaves every pending, scheduled or retrying
  row with a token throughout exactly when none of its turns strands a job
  (`NoLostJob.RunExactlyKeeps`). Without failures the only stranding turn is a late mark of the due
  loop, which does happen (`Witnesses.LateMarkHappens`); with push and mark uninterrupted no job is
  ever lost (`NoLostJob.NothingLost`).
* **After a loss.** The recovery sweep brings a lost pending job back exactly when few enough rows are
  as old (`Recovery.RecoveryExact`, `Recovery.LostJobRecovered`). As long as 100 older rows stay
  pending it starves, whatever workers, requests and schedulers do (`Starvation.StarvesForEver`); rows
  of a queue that no worker listens on stay pending, and such a state is reachable
  (`Starvation.StarvesBehindParked`, `Starvation.StarvesWhileOthersRun`). Any other lost job that
  nobody in flight still names is never executed again (`Lost.StuckForEver`).
* **After completion.** A completed job without a token stays so exactly when none of five late writes and
  pushes names it (`Quiescence.FinishedExact`); otherwise it may be executed again, even in a
  failure-free run (`Witnesses.CompletedRunsAgain`).
* **Single holder.** A run keeps at most one token per job, and none for a dead one, exactly when it
  never collides (`SingleHolder.RunExact`), whatever fails or crashes. The only collisions are a
  recovery-sweep push of a job that has a token or is dead, and an API retry that resets a row after
  another one did; both happen (`Witnesses.SweepDuplicates`, `Witnesses.RetriesRace`).
* **Appointments.** While the run time a job was created with is a second or more away, no worker pops or
  executes it, in any run (`Appointments.NeverEarly`).
* **Accounting.** In every run a job's handler starts are bounded by its pops, these by the attempted
  pushes, and these by creation, API retries, sweep pushes and retries
  (`Accounting.ExecutionsBounded`).
* **Retries.** A job left to its retries keeps its token until the failure that makes it dead, and that
  failure is execution number max(1, limit − r), with the delays adding up in closed form, in every
  interleaving with the rest of the system (`RetryCycle.RetriesToDeath`). Death is always within
  reach of one idle slot (`Death.FailingJobDies`). An API retry gives a dead job its full number of
  executions again (`Revival.RetriedAnew`).
* **Election.** With sessions dying at any moment, at most one instance in the leader section has a
  live session and it owns the lock (`Leader.LockSafety`); callbacks alternate and no scheduler loop
  outlives its term (`Leader.LifecycleSafety`) or ends before it (`Leader.LoopsLastTheTerm`). An owner
  stays leader until a query of its own fails or it shuts down (`Leader.StaysLeader`).

## Model

| member | source | states |
|---|---|---|
| NoLostJob.StepExactlyKeeps | internal/worker/worker.go:120-198 | for every turn and every outcome of its call: all live rows keep a token if and only if the turn strands no job (unacknowledged insert, last token let go of while the row is live, row made live when no token is left) |
| NoLostJob.RunExactlyKeeps | internal/worker/worker.go:88-198 | a whole run, with failures and crashes, loses no job at any moment if and only if none of its turns strands one |
| NoLostJob.StepKeeps | internal/scheduler/scheduler.go:94-126 | a job with its token keeps it, or stops being live, in any turn that does not strand it |
| NoLostJob.StrandedIsLost | internal/worker/worker.go:88-198 | each stranding turn does leave a live row without a token |
| NoLostJob.FaultlessExact | internal/scheduler/scheduler.go:114-121 | when no call fails, a turn loses a job if and only if it is a mark that arrives after the token just pushed was used up |
| NoLostJob.NothingLost | internal/scheduler/scheduler.go:101-126 | after every failure-free run with each push and its mark uninterrupted, every pending, scheduled or retrying row has a token |
| Witnesses.LateMarkHappens | internal/scheduler/scheduler.go:114-121 | a failure-free run that reaches a late mark on a completed job, after which the row is pending and the job has no token |
| SingleHolder.StepExact | internal/scheduler/scheduler.go:150-156 | a turn keeps one token per job and none for a dead one if and only if it is not a colliding sweep push or retry reset |
| SingleHolder.RunExact | internal/worker/worker.go:101-114 | a whole run, with failures and crashes, keeps that throughout if and only if none of its turns collides |
| SingleHolder.NoDoubleExecution | internal/worker/worker.go:101-175 | in a run that never collides no two workers execute the same job at once |
| SingleHolder.WholeRetriesNeverCollide | internal/api/handler.go:246-264 | with each API retry's read and reset uninterrupted and sweeps that push only token-less jobs, no run collides |
| SingleHolder.DeathsByWorker | internal/worker/worker.go:181-189 | a row becomes dead only in a worker's failure, in the step that ends that worker's token |
| Witnesses.SweepDuplicates | internal/scheduler/scheduler.go:143-157 | a failure-free run in which the recovery sweep pushes a second token for a job that waited five seconds in its queue, and goes on until two workers execute the job at once |
| Witnesses.RetriesRace | internal/api/handler.go:246-264 | two API retries that both read the row as dead before either resets it collide |
| Tokens.TokenBalance | internal/queue/redis.go:49-95 | for every turn, tokens before plus tokens the turn creates equal tokens after plus tokens it ends, for every job |
| Soundness.StepSound | internal/worker/worker.go:120-198 | one turn keeps the row invariants, that tokens and snapshots name only ids the database drew, and that a snapshot's retry limit is never stale |
| Soundness.RetryInvariants | internal/worker/worker.go:181-198 | in every reachable state: retry count at least 0; retrying implies 1 <= count < limit; dead implies count >= 1 and >= limit; running implies started_at is set |
| Rows.RowKeepsIdentity | internal/storage/postgres.go:107-140 | in every run a row keeps queue, type, limit, creation and run time as long as it exists, and a deleted row does not come back |
| Rows.TimesInOrder | internal/storage/postgres.go:107-128 | in every reachable state created <= started <= now, and a completed row has started_at and completed_at, in order |
| Accounting.StepAccounted | internal/scheduler/scheduler.go:94-157 | every turn keeps the books of pops, pushes and what they are paid with |
| Accounting.ExecutionsBounded | internal/worker/worker.go:88-198 | in every run: handler starts <= pops <= attempted pushes <= 1 + API retries + sweep pushes + retry branches |
| Quiescence.QuietForEver | internal/storage/postgres.go:202-250 | a completed, cancelled or failed job with no token and no actor naming it keeps its row unchanged in every continuation |
| Quiescence.FinishedExact | internal/scheduler/scheduler.go:143-157 | over a whole run a completed job without a token stays so if and only if no turn is a late mark, a retry reset, a cancel or stale-sweep write or a recovery push naming it; then it is not executed again |
| Quiescence.StepFinishedExact | internal/worker/worker.go:170-174 | the same for one turn |
| Witnesses.CompletedRunsAgain | internal/scheduler/scheduler.go:114-121 | a failure-free run in which a completed job without a token is marked pending, swept up and executed again |
| Lost.StepUnserved | internal/worker/worker.go:88-198 | a lost job that nobody names but cancel requests is left alone by every turn, apart from being cancelled, unless the recovery sweep selects it |
| Lost.StuckForEver | internal/storage/postgres.go:202-225 | if it carries a run time or is not pending, it is never executed again in any continuation |
| Recovery.RecoveryExact | internal/storage/postgres.go:202-225 | a row old enough is in every answer of the sweep's query if and only if fewer than 100 others are at least as old, and in some answer if and only if fewer than 100 are older |
| SweepAge.PushesAreOld | internal/scheduler/scheduler.go:143-157 | in every run each push of the recovery sweep goes back to a query of the same slot that found the row pending, without run time and more than five seconds old |
| SweepAge.YoungNeverCollides | internal/storage/postgres.go:202-209 | a job younger than five seconds at every query is never the one a sweep push collides on |
| Recovery.LostJobRecovered | internal/scheduler/scheduler.go:143-157 | a lost pending job with fewer than 100 rows at least as old is back in its queue after one sweep, and no row has changed |
| Starvation.StarvesForEver | internal/scheduler/scheduler.go:143-157 | in every run, with every actor moving and every call free to fail: a lost job gets no token, is taken up by nobody and is not executed as long as 100 older rows stay pending |
| Starvation.StarvesBehindParked | internal/api/handler.go:60-63 | it starves in every run in which 100 older rows wait in a queue that no pop listens on and nobody cancels them, whatever else happens |
| Starvation.StarvationHappens | internal/api/handler.go:91-106 | a reachable state of that kind: 101 failed pushes, the first hundred for a queue without workers |
| Starvation.StarvesWhileOthersRun | internal/worker/worker.go:88-116 | from there the job starves on while a job submitted later is executed and completed |
| DueTiming.ReleasedInTime | internal/queue/redis.go:72-95 | a due fetch at any moment of any run returns every entry whose time has come, removes exactly what it returns, returns nothing a second or more early, releases the k-th retry more than 2^k - 1 seconds after its failure, k <= 33, and an entry made at creation by the run time stored in its row |
| Appointments.NeverEarly | internal/api/handler.go:79-99 | in every run, while a job's run time is a second or more away it is scheduled or cancelled, in no queue, and no worker has popped or executes it |
| StaleSweep.StaleNotExecuting | internal/storage/postgres.go:227-250 | in every run, if executions under way are at most twice the timeout old, no row the stale sweep selects is being executed |
| StaleSweep.SweepHitsNoExecution | internal/scheduler/scheduler.go:174-186 | with each sweep's query and writes uninterrupted and executions at most twice the timeout old at each query, no write of the stale sweep hits a job being executed |
| StaleSweep.BacklogDrained | internal/scheduler/scheduler.go:174-186 | n jobs stale at a cut-off are all failed with retry counts unchanged after any ceil(n/100) sweeps, even when later sweeps also see younger stale jobs |
| Draining.SweepsDrain | internal/scheduler/scheduler.go:174-186 | the same over runs of the system: any ceil(n/100) whole sweeps of one slot, with time passing in between, fail n stale jobs and keep their retry counts |
| Witnesses.InterruptedSweepHits | internal/scheduler/scheduler.go:174-186 | an interrupted stale sweep is about to fail a job that is being executed, although nobody executed it at the query |
| StaleSweep.OldestFirst | internal/storage/postgres.go:227-235 | a sweep takes all of the backlog at an earlier cut-off, or a full batch out of it |
| RetryCycle.RetriesToDeath | internal/worker/worker.go:181-198 | from retry count r and one token, every calm run starts the handler at most max(1, limit - r) times; the token is gone only if the row was dead at some moment of the run, and then the count of executions is exact, the row's retry count is max(r+1, limit), and the delays sum to 2^max(r+1, limit) - 2^(r+1) seconds for limits up to 34 |
| RetryCycle.DiesByThen | internal/worker/worker.go:181-189 | in every calm run, a token that is gone was ended by the failure that wrote the row dead |
| RetryCycle.StepInCycle | internal/worker/worker.go:120-198 | every turn that leaves the job to its retries keeps the tally of tokens, executions and retry count |
| RetryCycle.StepPatient | internal/worker/worker.go:195-196 | ... and the tally of retries scheduled and seconds asked for |
| Death.FailingJobDies | internal/worker/worker.go:181-198 | from every sound state in which the job's one token waits in a list or in the set, behind any other ids, one idle slot can run it to the dead state without a failing call, processing the ids ahead of it to their end, with exactly max(1, limit - r) executions |
| Witnesses.CountPassesLimit | internal/worker/worker.go:181-189 | with a duplicate token a retry count passes its limit |
| Witnesses.CancelledRuns | internal/api/handler.go:213-221 | a cancelled job is executed: its id stays in Redis |
| Revival.RetryRevives | internal/api/handler.go:246-264 | an API retry of a dead job taken whole: pending, no retries counted, otherwise unchanged, one token at the left end of its queue |
| Revival.RetriedAnew | internal/worker/worker.go:181-198 | from then on every calm run executes it at most max(1, limit) times, and exactly that often when it is dead again |
| Revival.DiesAnew | internal/worker/worker.go:181-198 | such a run exists, without a failing call, for one idle slot |
| Jobs.BackoffExact | internal/model/job.go:58-60 | for n below 63 the 64-bit nanosecond product equals 2^n seconds if and only if n <= 33 |
| Jobs.BackoffWraps | internal/model/job.go:58-60 | below 63 the delay is the 64-bit remainder of the product, and from 55 on it is zero |
| Jobs.CancellableStatuses | internal/model/job.go:35-55 | exactly pending, scheduled and running can be cancelled |
| Jobs.DelaySumClosed | internal/model/job.go:58-60 | consecutive delays add up to a difference of two powers of two |
| Processes.Instance.Work | internal/worker/worker.go:88-116 | one turn of the worker loop does to the stores what AfterWork says, for every outcome of its calls |
| Processes.Instance.ProcessJob | internal/worker/worker.go:120-177 | the whole processing of one id, with every early return, as a function of what it saw and how its calls ended |
| Processes.Instance.HandleFailure | internal/worker/worker.go:181-198 | the count read plus one is written, dead exactly when it reaches the limit read; otherwise the retry goes to the set, whatever the write returned |
| Processes.Instance.ProcessScheduledJobs | internal/scheduler/scheduler.go:94-126 | takes exactly the due entries in score order and handles each in turn |
| Processes.Instance.ProcessDueJob | internal/scheduler/scheduler.go:101-121 | the id goes to the left end of the queue its row names, and the row becomes pending exactly when the push was answered, the row was retrying and the mark took effect |
| Processes.Instance.RecoverUnqueuedJobs | internal/scheduler/scheduler.go:143-157 | the rows pushed are pending, without run time and more than five seconds old, oldest first and at most 100; nothing when the query fails |
| Processes.Instance.RecoverStaleJobs | internal/scheduler/scheduler.go:174-186 | the rows failed have been running for more than twice the timeout, longest first and at most 100, each with the retry count read; nothing when the query fails |
| Processes.Instance.CreateJob | internal/api/handler.go:53-109 | which requests are refused; the row stored has the queue, type, limit (3 when absent) and run time asked for, no retries counted, and is scheduled exactly when it has a run time; the id is then in the set with that run time, or at the left end of its queue's list |
| Processes.Instance.RetryJob | internal/api/handler.go:239-268 | each response if and only if its condition holds; a success leaves the row pending with retry count 0 and otherwise unchanged, and the id at the left end of the row's queue |
| Processes.Instance.CancelJob | internal/api/handler.go:200-225 | each response if and only if its condition holds (pending, scheduled and running can be cancelled); a success changes only the status |
| Processes.Instance.DeleteJob | internal/api/handler.go:281-294 | success if and only if the row was dead and the call was done; only dead rows go |
| Processes.ReapsAll | internal/scheduler/scheduler.go:181-185 | a stale sweep whose writes succeed changes only the status of exactly the selected rows |
| Outcomes.JobSucceeds | internal/worker/worker.go:144-174 | a successful execution leaves the row completed, started at the running write and completed at the end, everything else unchanged |
| Outcomes.JobFails | internal/worker/worker.go:154-198 | a failing one leaves it dead or retrying with one more retry counted, and the retry in the set 2^count seconds after the failure |
| Outcomes.UnknownMeans | internal/worker/worker.go:137-142 | a job without a handler becomes failed with its count unchanged |
| Outcomes.UnbegunMeans | internal/worker/worker.go:144-147 | a running write that is not acknowledged ends the work on the job |
| Outcomes.FailureMeans | internal/worker/worker.go:181-198 | handleFailure, said of rows and set, for every outcome of its two calls |
| Outcomes.CreateMeans | internal/api/handler.go:60-106 | the create handler, said of rows, lists and set, for every outcome of its calls |
| Outcomes.RetryMeans | internal/api/handler.go:246-264 | the retry handler likewise |
| Outcomes.CancelMeans | internal/api/handler.go:207-221 | the cancel handler likewise |
| Outcomes.DueMeans | internal/scheduler/scheduler.go:101-121 | one due job likewise |
| Outcomes.DuesMean | internal/scheduler/scheduler.go:101-126 | the due jobs go in front of the lists of their queues in the order the script returned them |
| Outcomes.PushesMean | internal/scheduler/scheduler.go:150-156 | the recovery sweep's pushes go in front of each list in the order of the query; no row changes |
| Outcomes.ReapsMean | internal/scheduler/scheduler.go:181-185 | the stale sweep fails a row with the count read exactly where its write took effect |
| SlotRuns.SlotRun | internal/worker/worker.go:88-198 | the turns of one slot do to the whole system what its steps do to the stores and itself |
| SlotRuns.WorkTurns | internal/worker/worker.go:88-116 | one turn of the worker loop is a run of the system by one idle slot, for every outcome of every call |
| ProcessRuns.JobRuns | internal/worker/worker.go:120-198 | step by step, the worker actor does to the stores what the processing of one job does |
| SlotRuns.ScheduledTurns | internal/scheduler/scheduler.go:94-126 | the due-job function, script and loop, is a run of the system by one idle slot |
| SlotRuns.RecoverTurns | internal/scheduler/scheduler.go:143-157 | so is the recovery sweep, query and loop |
| SlotRuns.StaleTurns | internal/scheduler/scheduler.go:174-186 | so is the stale sweep, query and loop |
| SlotRuns.CreateTurns | internal/api/handler.go:60-106 | so is the create handler |
| SlotRuns.RetryTurns | internal/api/handler.go:246-264 | so is the retry handler |
| SlotRuns.CancelTurns | internal/api/handler.go:207-221 | so is the cancel handler |
| SlotRuns.DeleteTurns | internal/api/handler.go:288-291 | so is the delete handler |
| Storage.PostgresStorage.CreateJob | internal/storage/postgres.go:85-94 | the row is stored under a new id unless the call was refused |
| Storage.PostgresStorage.UpdateJobStatus | internal/storage/postgres.go:107-128 | after an effective call the status is the one given, started_at is now exactly for running, completed_at now exactly for completed, every other field and row is unchanged; a missing row is no error |
| Storage.PostgresStorage.UpdateJobError | internal/storage/postgres.go:130-140 | after an effective call status and retry count are the ones given; every other field and row is unchanged |
| Storage.PostgresStorage.DeleteJob | internal/storage/postgres.go:296-307 | no error if and only if a dead row was there and the call was done; every other row is unchanged |
| Storage.PostgresStorage.GetPendingUnqueued | internal/storage/postgres.go:202-225 | only pending rows without run time created before the cut-off, none twice, oldest first; all of them when fewer than 100 are returned, otherwise 100 of which none is younger than one left out |
| Storage.PostgresStorage.GetStaleRunningJobs | internal/storage/postgres.go:227-250 | only rows running since before twice the timeout ago, none twice, longest running first; all of them when fewer than 100 are returned, otherwise 100 of which none started after one left out |
| Storage.UnqueuedExact | internal/storage/postgres.go:202-209 | that answer in the query's own terms: it is exactly ORDER BY created_at LIMIT 100 over those rows |
| Storage.StaleExact | internal/storage/postgres.go:227-234 | the same for the stale query, ordered by started_at |
| Selection.SelectOldest | internal/storage/postgres.go:207-208 | ORDER BY key ASC LIMIT n: the n smallest keys, in order, ties in any order |
| Redis.KeysApart | internal/queue/redis.go:44-46 | two queue names share a key only if they are equal, and none shares the sorted set's key |
| Redis.RedisQueue.Push | internal/queue/redis.go:49-51 | the id enters the left end of its own queue's list in the shared keyspace; every other key is untouched |
| Redis.RedisQueue.Pop | internal/queue/redis.go:54-69 | the right end of the first non-empty list in key order, or nothing |
| Redis.RedisQueue.Schedule | internal/queue/redis.go:72-77 | the id's score becomes the run time in whole seconds |
| Redis.RedisQueue.GetDueJobs | internal/queue/redis.go:85-95 | the ids with score up to now, in score order, each once; exactly these leave the set |
| Redis.FirstNonEmpty | internal/queue/redis.go:54-69 | a key is chosen only when every earlier key is empty |
| Redis.QueueIsFifo | internal/queue/redis.go:49-69 | over every run of pushes and multi-key pops, popped ids followed by waiting ids are exactly the pushed ids of that name; popped is a prefix of pushed |
| Redis.SetConserves | internal/queue/redis.go:14-20 | over every interleaving of Schedule and GetDueJobs calls each entry is returned by exactly one call, replaced by a later Schedule, or still waiting |
| Redis.DueWindow | internal/queue/redis.go:72-95 | every entry with run time <= t is due at t, nothing due has run time >= t + 1s, due and remaining are complementary |
| Lifecycle.StartKeeps | internal/scheduler/scheduler.go:44-60 | starting a stopped scheduler spawns three loops without disturbing the invariant that loops alive belong to the last start |
| Lifecycle.StartAddsThree | internal/scheduler/scheduler.go:44-60 | starting a stopped scheduler adds exactly three loops alive, under a new context that is not cancelled |
| Lifecycle.StopKeeps | internal/scheduler/scheduler.go:64-77 | once the wait group is at zero, clearing the flag keeps it |
| Lifecycle.LoopKeeps | internal/scheduler/scheduler.go:44-60 | so do the loops' own steps: reading the context field late, ending, being cancelled |
| Lifecycle.SchedulerObject.Start | internal/scheduler/scheduler.go:44-60 | a running scheduler is unchanged; a stopped one has exactly three loops alive under a new context that is not cancelled |
| Lifecycle.SchedulerObject.Stop | internal/scheduler/scheduler.go:64-77 | returns with every loop ended under the context of its own start, and the wait terminates |
| Leader.MoveOk | internal/leader/leader.go:105-167 | one step of one instance keeps the lock invariant and disturbs no other instance's session |
| Leader.LockSafety | internal/leader/leader.go:43-85 | for any number of instances and sessions dying at any moment: at most one instance in the leader section has a live session, it owns the lock, and the lock is at most once deep |
| Leader.TwoBelieve | internal/leader/leader.go:43-85 | two instances believe to lead while the first has not noticed that its session died |
| Leader.FreshSession | internal/leader/leader.go:105-130 | every lock query runs on a session opened for that attempt, which does not own the lock |
| Leader.TryExact | internal/leader/leader.go:105-130 | tryAcquire wins if and only if its query is answered on a live session and nobody owns the lock; an answered loss leaves the lock as it is |
| Leader.HeartbeatExact | internal/leader/leader.go:148-163 | a heartbeat keeps the instance in holdLock if and only if it is answered and the live session owns the lock; then nothing changes |
| Leader.StaysLeader | internal/leader/leader.go:134-167 | an instance that owns the lock on a live session leaves holdLock only by a failed query of its own or its own shutdown |
| Leader.SteppingDownFrees | internal/leader/leader.go:134-167 | stepping down with a connection that closes at once frees the lock |
| Leader.CanBeElected | internal/leader/leader.go:43-85 | in every reachable state with a free lock an instance at the head of its loop can become leader with three loops running |
| Leader.NeverTrapped | internal/leader/leader.go:43-85 | from every reachable state an instance that has not returned can get back to the head of its loop |
| Leader.CanReturn | internal/leader/leader.go:43-85 | from every reachable state a shutdown can make Start return, with the scheduler stopped |
| Leader.ReturnsOnShutdown | internal/leader/leader.go:46-53 | at the head of its loop it returns if and only if it is shutting down |
| Leader.LifecycleSafety | internal/leader/leader.go:46-84 | callbacks strictly alternate; from the loop head to a won lock, and after Start returned, the scheduler is stopped with no loop alive and the instance is not leader; each loop runs under the context of its own start |
| Leader.LoopsLastTheTerm | internal/scheduler/scheduler.go:44-60 | from onAcquire to onRelease, unless shut down, all three loops are alive under a context that is not cancelled |
| Leader.WaitCanEnd | internal/scheduler/scheduler.go:64-77 | while Stop waits, every loop alive has a step that brings it closer to its end |
| Hub.Client.TrySend | internal/dashboard/hub.go:43-51 | sends if and only if fewer than 256 messages wait, never on a closed channel |
| Hub.HubObject.Register | internal/dashboard/hub.go:34-36 | the object is then where the run machine's register event leads |
| Hub.HubObject.Unregister | internal/dashboard/hub.go:37-42 | closes the channel of a registered client once, the second request of the same client does nothing; the object is then where the run machine's unregister event leads |
| Hub.HubObject.Broadcast | internal/dashboard/hub.go:43-51 | every client gets the message or is dropped and closed, whatever the order of the clients; the object is then where the run machine's broadcast event leads |
| Hub.HubObject.Receive | internal/dashboard/client.go:18-39 | the oldest message leaves the channel, as the run machine's take event says |
| Hub.HubObject.Shutdown | internal/dashboard/hub.go:57-63 | after the loop has returned, every channel is closed once and no client is left |
| Hub.NextCalm | internal/dashboard/hub.go:29-54 | an event keeps the hub safe if and only if it does not register a client whose channel was already closed |
| Hub.DangerIsReal | internal/dashboard/hub.go:43-51 | a hub with a closed registered channel panics at the next broadcast |
| Hub.HubSafety | internal/dashboard/hub.go:29-54 | in every run in which each client registers at most once: no channel is closed twice or written after closing, and what is put into a channel is a gap-free stretch of the broadcast log from the client's registration on, complete while registered, taken out in order |
| Hub.ObjectDelivers | internal/dashboard/hub.go:29-54 | for the object itself: messages taken and waiting are one gap-free stretch of the broadcasts from the client's registration on |
| Hub.ReRegisteringPanics | internal/dashboard/hub.go:29-54 | registering a dropped client again makes the hub write to a closed channel |
| Hub.SlowClientDropped | internal/dashboard/client.go:18-39 | a client that stops reading is gone by the 257th broadcast that follows |
| Hub.DroppedExactly | internal/dashboard/hub.go:43-51 | a client that does not read and is not told to leave stays registered if and only if waiting messages and broadcasts to come are at most 256 |
| Listing.BuildWhere | internal/storage/postgres.go:143-161 | next placeholder = arguments + 1 throughout, and the clauses evaluated against the arguments select exactly the rows with the status, queue and type asked for, where asked for |
| Listing.AddClause | internal/storage/postgres.go:147-161 | one more clause narrows the selection by exactly that column |
| Listing.BuildQuery | internal/storage/postgres.go:163-183 | the page query means the same as the count query, and LIMIT and OFFSET are bound to the two appended arguments |
| Listing.ListJobs | internal/storage/postgres.go:142-200 | the total is the number of matching rows and the page holds those numbered (page - 1) * limit up to page * limit, with page at least 1 and limit 20 when below 1 |
| Listing.PagesPartition | internal/api/handler.go:152-186 | for any limit >= 1, pages 1 .. TotalPages put together are the matching rows exactly once in order; a page is empty if and only if its number is larger |
| Listing.HandleListJobs | internal/api/handler.go:152-186 | for any numbers asked: page is the asked one or 1, limit the asked one if in 1..100 or 20, the data are the matching rows of that page, total and total pages as counted |
| Listing.ClientSeesAll | internal/api/handler.go:152-186 | for any limit in 1..100, the answers for pages 1 .. total pages carry every matching row exactly once in order, none of them empty, and later answers are empty |
| Listing.StatusRoundTrip | internal/model/job.go:10-33 | status texts and statuses correspond one to one |
| Listing.FragmentCovers | internal/dashboard/templates.go:125-131 | the fragment's page count covers all rows at the page size the storage layer uses |
| Listing.PageCountsAgree | internal/dashboard/templates.go:125-131 | at page size 50 the page count of the fragment equals that of the main page and covers all rows |
| Stats.GetStats | internal/api/handler.go:372-385 | the totals are the sums of the reported groups per status |
| Stats.GetQueues | internal/api/handler.go:305-321 | the nested map holds each reported group and nothing else |
| Stats.GetQueueByName | internal/api/handler.go:333-348 | the same for one queue |
| Stats.GroupExact | internal/storage/postgres.go:252-271 | a group is reported if and only if it is not empty, with its direct count over the table |
| Stats.ByNameIsEntry | internal/api/handler.go:333-348 | the map of GetQueueByName equals the entry of the map of GetQueues, and is empty when the queue has no jobs |
| Stats.StatsExact | internal/api/handler.go:372-385 | what GetStats adds up for a status is the number of jobs with that status |
| Stats.QueuesSumToStats | internal/api/handler.go:305-321 | summed over the queues in the map of GetQueues, the counts of a status equal the entry of the map of GetStats and the direct count |
| Stats.StatsSumToTable | internal/api/handler.go:372-385 | the entries of the map of GetStats sum to the table size |
| Chart.Collect | internal/dashboard/templates.go:223-241 | labels in first-appearance order, each with the totals of its points |
| Chart.LabelExact | internal/dashboard/templates.go:226-231 | two points share a label if and only if their buckets are whole days apart |
| Chart.BuildChartData | internal/dashboard/templates.go:211-259 | four arrays of equal length holding the labels and the three series |
| Chart.LabelsInOrder | internal/dashboard/templates.go:223-241 | labels are distinct, every point's label occurs, and a label's place is fixed by its first appearance |
| Chart.ChartConserves | internal/dashboard/templates.go:211-259 | each series sums to the total count of its status, also when several buckets share a label |

## Where the code and its documentation disagree

* The transition table in the repository's README and in `internal/model/job.go` is consulted only by
  the cancel request. Workers write running to retrying and running to dead, the due loop writes
  pending from whatever the row has become, and the sweeps write failed, without consulting it. The
  model follows the code.
* A job that was cancelled can still run (`Witnesses.CancelledRuns`), a duplicate token can push a retry
  count past its limit (`Witnesses.CountPassesLimit`), and two instances can believe they lead for as
  long as one of them has not noticed that its session died (`Leader.TwoBelieve`). The results above
  hold in spite of these.
* The documented delay of 2^n seconds holds up to n = 33 (`Jobs.BackoffExact`). From n = 63 on Go
  leaves the float conversion to the platform; the model takes whatever it yields.

## Left out

- HTTP routing, middleware, JSON and UUID parsing, templates, Swagger, metrics, configuration, logging and the demo handlers: plumbing.
- Pub/Sub events and fragment rendering: they never feed back into job state.
- `LeaderElector.Stop`, and `Hub.Shutdown` while the hub's loop is still running: they share fields with their loops without synchronisation.
- The internals of Redis and Postgres: commands, the Lua script and single-row statements are atomic, and an advisory lock belongs to its session (section 13.3.5 of the PostgreSQL 16 documentation). Retries of commands inside the Redis client library are not modelled.
- The election loop and the interleaving of all actors are step machines over values, not classes, because several processes share the state.
- Endless loops with tickers (the worker's, the scheduler's, the election's): one turn of each is modelled, and runs are arbitrary sequences of turns; the pause after a failed pop is an ordinary passing of time.
- Payloads, error texts, `updated_at` and the 32-bit width of the retry columns.
- Reading the clock and the statement or command that uses the reading are one step. In the source the time is read first, so another statement may come in between; that an execution's running write is stamped no earlier than it began (used for the stale sweep) and the exact retry delays rest on this.
- Real time beyond one monotone clock, and floating-point rounding in page counts and scores; integers are used.
- The text of SQL statements: a clause is a column with a placeholder number, and the table arrives in the order ORDER BY gives it.
- Listing.ListJobs: the product of page and limit is unbounded; a page number so large that it overflows 64 bits is not modelled.
- The text of chart labels: a label is the minute of the day it stands for.
- The handler registry (a locked map), `Pool.Start` and `Pool.Stop`.
- StaleSweep.StaleNotExecuting: speaks of the moment the query selects the rows; `StaleSweep.SweepHitsNoExecution` covers the writes when they follow without interruption. An interrupted sweep can hit a job whose execution began after the query (`Witnesses.InterruptedSweepHits`).
- StaleSweep.BacklogDrained: assumes nothing else writes the table between the sweeps and that their writes succeed; so does `Draining.SweepsDrain`.
- RetryCycle.RetriesToDeath: the closed form of the delays is stated for limits up to 34, where the last delay used is still exact.
