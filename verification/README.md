# BoardTrace backend: verification project

BoardTrace analyses finished chess games on a server and hands each analysis out once.
This project models the parts of its Python backend where several stores, workers and
requests have to agree, in Dafny 4.11, and proves what the design promises of them.
`dafny verify dfyconfig.toml` checks all of it.

**Admission, lease and outbox protocol.** `Admission` is the bounded queue: two active
slots, three waiting places, one job per user. `RedisAdmission` is the same queue as a set,
a sorted set and three hashes, changed in place by the six Lua scripts, each proved to be
one abstract operation. `JobLifecycle` and `JobRuns` treat one `analysis_jobs` row with its
outbox rows and every mutator of the repository, and `JobEffects` says of each mutator,
column by column, when it is accepted and what it writes; `JobTable` is the pair of tables
those mutators change in place. `Protocol` interleaves script steps and committed transactions in
any order, with no step touching both stores; whoever crashes takes no further step.
`Worker` and `Handlers` hold the procedures that drive both stores, each proved to be a run
of `Protocol`, so that every release of capacity is seen to follow a terminal commit. `Leases` draws
together what the length of a lease means to everyone who looks at it.

**Results and their release.** `FullGame` is the analyzer loop against an arbitrary engine
and clock. `Persistence` stores and rebuilds a result, with the engine settings of
`EngineConfig`. `ResultStore` is the set of tables with the transactions over them,
`Release` follows one game and its only job through every run of those transactions,
`ReleaseEffects` says what each of them writes and which exception it raises, and
`GameRuns` follows all games of the tables at once, with the transactions proved to take
its steps.

**Metrics and delivery.** `MoveMetrics`, `MoveClassification` and `GameMetrics` are the pure
layers, `Pipeline` composes and checks them, and `Delivery` replays the moves, maps the
result and consumes it. Decimals with two places are integers counting hundredths.

**Refresh tokens.** `Sessions` proves that rotation keeps each token family a chain.

Redis scripts and committed transactions are atomic, rollback restores the state before,
uuid5 and token digests are injective, new ids are fresh, and clocks, engine answers, broker
outcomes and jitter are inputs. A job's owner never changes, so the model keeps it in the
job id.

## What the code does not do

Some promises hold only under a condition. For each, a theorem states it exactly, and a
lemma shows an input that fails.

- Neither `claim_job` nor `schedule_retry` looks at `max_attempts`. A job stays within
  max_attempts / 2 + 1 leases and max_attempts + 1 counted attempts exactly if neither is
  accepted with the count above the limit (`JobRuns.BoundHoldsExactly`,
  `JobRuns.LeasesBoundedExactly`); some runs exceed any bound
  (`JobRuns.WorkerRetriesAreUnbounded`).
- The failure inside `recover_expired_lease` sets no `finished_at` and deletes no game data,
  and it is the only terminal step that does not (`JobRuns.FinishTimestamp`,
  `Release.CleanupExactly`, `Release.CleanedExactly`, `Release.RecoveryKeepsData`).
- `_validate_result` accepts results that fail with a KeyError while their rows are inserted:
  those with a move and no fewer moves than positions (`Persistence.ResolvableExactly`,
  `Persistence.KeyErrorExample`).
- Engine names and versions longer than 100 characters are cut, so such a result does not
  round-trip (`Persistence.RoundTrip`, `Persistence.LongNameExample`).
- The analyzer replays a game from its own initial position, the public mapping always from
  the standard one. A published analysis is deliverable exactly if the game also fits the
  standard position, move by move (`Delivery.AnalyzedGameDelivers`,
  `Delivery.CustomStartExample`).
- A granted cancellation of a waiting job can still end in an exception: exactly if the job
  is leased by then (`Protocol.CancelVerdict`), which takes a new submission in between
  (`Protocol.CancellationHolds`, `Protocol.CancellationRace`).
- A granted extension of the waiting time is answered as rejected exactly if the job no longer
  waits when the handler looks again (`Handlers.InterruptedExtension`,
  `Handlers.ExtensionRace`).
- Logging out everywhere misses exactly the sessions issued between its query and its writes
  (`Sessions.InterruptedLogout`, `Sessions.LogoutRace`).
- Accuracy 100.00 needs an ACPL that rounds to 0.00, not losses of zero
  (`GameMetrics.FullAccuracy`, `GameMetrics.LossRoundsAway`); coverage 100.00 can miss one
  move in 20000 (`GameMetrics.FullCoverage`, `GameMetrics.CoverageRoundsUp`).

## Model

| member | source | states |
|---|---|---|
| Protocol.Safety | apps/api/src/boardtrace_api/api/v1/endpoints/ingestion.py:87-109 | in every interleaving of script, commit and crash, a non-terminal job with an outbox row holds a Redis slot; so at most two jobs are queued, claimed, running or awaiting a retry, and no two share an owner |
| Protocol.RunInv | apps/api/src/boardtrace_api/worker.py:275-332 | the invariant behind it: every first outbox row, and every ACTIVE reply or promotion somebody may still act on, belongs to a job that is active in Redis or terminal in Postgres |
| Protocol.RedisSettles | apps/api/src/boardtrace_api/queue_admission.py:141-153 | a script step can free a slot only by completing a terminal job |
| Protocol.RedisGrants | apps/api/src/boardtrace_api/queue_admission.py:69-93 | a script step grants the right to write a first row only to a job it leaves active |
| Protocol.RowBacked | apps/api/src/boardtrace_api/repositories/analysis_jobs.py:110-131 | a Postgres step keeps every first row backed |
| Protocol.SystemFencing | apps/api/src/boardtrace_api/repositories/analysis_jobs.py:210-320 | in the whole system, a write carrying a generation that is over changes nothing, whatever happened in between |
| Protocol.SystemFifo | apps/api/src/boardtrace_api/queue_admission.py:141-153 | promotions over any run of the whole system happen in order of arrival |
| Protocol.RowRuns | apps/api/src/boardtrace_api/repositories/analysis_jobs.py:147-381 | seen from one row a run of the system is a run of that row, so every row law below applies |
| Protocol.QueueRuns | apps/api/src/boardtrace_api/queue_admission.py:69-153 | seen from Redis it is a run of the admission queue |
| Protocol.WaitingIsPending | apps/api/src/boardtrace_api/api/v1/endpoints/ingestion.py:260-294 | in every reachable system a waiting job is finished, or PENDING without an outbox row |
| Protocol.CancelVerdict | apps/api/src/boardtrace_api/repositories/analysis_jobs.py:322-345 | cancelling a row is accepted exactly if it is neither finished nor leased, and raises exactly if it is leased |
| Protocol.CancellationHolds | apps/api/src/boardtrace_api/api/v1/endpoints/ingestion.py:253-273 | after Redis granted a cancellation, whatever steps follow, unless the job is submitted again the row can be cancelled exactly until it is finished otherwise, and never raises |
| Protocol.CancellationRace | apps/api/src/boardtrace_api/api/v1/endpoints/ingestion.py:253-273 | if it is submitted again, the promise can fail: a run in which cancelling the row of a job whose cancellation was granted raises |
| Admission.RunInv | apps/api/src/boardtrace_api/queue_admission.py:69-153 | every reachable queue has at most two active and three waiting jobs, disjoint, tickets rising, one job per user, and both slots full while anybody waits |
| Admission.AdmitCases | apps/api/src/boardtrace_api/queue_admission.py:69-83 | an admission changes nothing, takes a free slot, or queues up last, and the reply says which |
| Admission.ReportedPosition | apps/api/src/boardtrace_api/queue_admission.py:85-93 | the reported position is one plus the number of waiters with smaller tickets, within 1..3, and the deadline is 180 or 360 s after admission |
| Admission.NeverOvertaken | apps/api/src/boardtrace_api/queue_admission.py:141-153 | while a job waits its position never grows, and each promotion in between takes a waiter from before it |
| Admission.PromotionsInOrder | apps/api/src/boardtrace_api/queue_admission.py:141-153 | promoted tickets strictly increase over any run |
| Admission.SweepDeadline | apps/api/src/boardtrace_api/queue_admission.py:119-139 | the sweep keeps exactly the waiters whose deadline is still ahead, returns exactly the others, and so leaves nobody 360 s after admission |
| Admission.OneExtension | apps/api/src/boardtrace_api/queue_admission.py:108-117 | a granted extension moves its own deadline by 180 s, no other one, and is the last one granted |
| Admission.AdmitExactly | apps/api/src/boardtrace_api/queue_admission.py:69-83 | which of the five answers an admission gives, from the members of the queue alone: USER_BUSY for another job of the same user, ACTIVE below two, then consent, then QUEUE_FULL at three, and else the last place for 180 s |
| Admission.JoinExactly | apps/api/src/boardtrace_api/queue_admission.py:79-83 | joining adds exactly one waiter, last, with the next ticket and a deadline 180 s from now |
| Admission.CancelExactly | apps/api/src/boardtrace_api/queue_admission.py:95-106 | a cancellation is granted exactly to a waiting job and takes exactly its place away |
| Admission.ExtendExactly | apps/api/src/boardtrace_api/queue_admission.py:108-117 | an extension is granted exactly to a waiting job not extended before whose deadline has not passed, and gives 180 s and the same place |
| Admission.CompleteExactly | apps/api/src/boardtrace_api/queue_admission.py:141-153 | a completion frees exactly the slot of an active job, and the waiter with the smallest ticket takes it |
| RedisAdmission.Store.Admit | apps/api/src/boardtrace_api/queue_admission.py:176-181 | for the owner as user the script is the abstract admission, reply included; for anyone else its keys and reply are those of `AdmitAs` |
| RedisAdmission.Store.RunAdmit | apps/api/src/boardtrace_api/queue_admission.py:69-83 | the script writes the keys and gives the reply of `AdmitAs`, whatever keys and user it is run with |
| RedisAdmission.AdmitAsOwner | apps/api/src/boardtrace_api/queue_admission.py:69-83 | on sound keys, with the owner as user, that is the abstract admission and leaves the keys sound |
| RedisAdmission.AdmitNeedsOwner | apps/api/src/boardtrace_api/queue_admission.py:73-80 | the keys stay sound exactly if the user is the owner or the job is not let in |
| RedisAdmission.Store.Enqueue | apps/api/src/boardtrace_api/queue_admission.py:79-83 | the joining branch writes the five keys of the new waiter and reports its rank |
| RedisAdmission.Store.State | apps/api/src/boardtrace_api/queue_admission.py:85-93 | the script reads the abstract state |
| RedisAdmission.Store.Cancel | apps/api/src/boardtrace_api/queue_admission.py:95-106 | the script removes exactly a waiting job of this user and says whether it did; any other user changes nothing |
| RedisAdmission.Store.Extend | apps/api/src/boardtrace_api/queue_admission.py:186-189 | the script is the abstract extension, refusals included |
| RedisAdmission.Store.RunExtend | apps/api/src/boardtrace_api/queue_admission.py:108-117 | the script writes and answers as `ExtendKeys`, whatever keys it is run with |
| RedisAdmission.ExtendRefines | apps/api/src/boardtrace_api/queue_admission.py:108-117 | on sound keys that is the abstract extension and leaves the keys sound |
| RedisAdmission.Store.Sweep | apps/api/src/boardtrace_api/queue_admission.py:119-139 | the nested loops equal the simple filter, and the list is in order of arrival |
| RedisAdmission.ForgetUserOf | apps/api/src/boardtrace_api/queue_admission.py:129-135 | the inner loop over the users hash deletes exactly the entry of the expired job |
| RedisAdmission.Store.Complete | apps/api/src/boardtrace_api/queue_admission.py:141-153 | the script frees the slot of an active job and promotes the first waiter; with another user than the owner it frees the slot, promotes nobody and leaves the users hash behind |
| RedisAdmission.SoundInv | apps/api/src/boardtrace_api/queue_admission.py:69-153 | the users hash being a bijection onto active and waiting jobs gives one job per user |
| RedisAdmission.JoinAdmits | apps/api/src/boardtrace_api/queue_admission.py:79-83 | the joining writes are the abstract admission |
| RedisAdmission.SweepStep | apps/api/src/boardtrace_api/queue_admission.py:122-137 | one pass of the outer loop advances the filter by one waiter |
| JobLifecycle.RunLawful | apps/api/src/boardtrace_api/repositories/analysis_jobs.py:193-381 | every reachable row obeys the counter law of `attempt_count` against `lease_generation`, the lease-field law, the timestamp law and the outbox law |
| JobLifecycle.StepCounters | apps/api/src/boardtrace_api/repositories/analysis_jobs.py:193-381 | each mutator keeps the counter, lease-field and timestamp laws |
| JobLifecycle.RescheduleOutbox | apps/api/src/boardtrace_api/repositories/analysis_jobs.py:169-191 | giving a lease back inserts the one unpublished row at a delivery generation no row has |
| JobLifecycle.PublishOutbox | apps/api/src/boardtrace_api/repositories/analysis_jobs.py:147-160 | publishing the one unpublished row leaves none and queues the job |
| JobRuns.StepFacts | apps/api/src/boardtrace_api/analysis/state.py:6-34 | every status change follows the transition table; generations grow; terminal rows and outbox rows stay; what is over stays over and is refused |
| JobRuns.Fencing | apps/api/src/boardtrace_api/repositories/analysis_jobs.py:210-320 | over whole runs, a start, heartbeat, complete, retry or failure carrying a finished generation is refused and changes nothing, whichever worker sends it |
| JobRuns.Absorbing | apps/api/src/boardtrace_api/repositories/analysis_jobs.py:246-345 | generations never fall and a terminal row never changes again |
| JobRuns.SingleExit | apps/api/src/boardtrace_api/repositories/analysis_jobs.py:246-381 | each generation leaves CLAIMED and RUNNING at most once |
| JobRuns.RetryInsertsItsRow | apps/api/src/boardtrace_api/repositories/analysis_jobs.py:169-191 | the row of a retry is never swallowed by ON CONFLICT DO NOTHING and is the only unpublished one |
| JobRuns.NoRetryLost | apps/api/src/boardtrace_api/repositories/analysis_jobs.py:265-293 | over any run the outbox gains exactly one row per retry, besides the first row |
| JobRuns.PendingRows | apps/api/src/boardtrace_api/repositories/analysis_jobs.py:133-191 | a reachable RETRY_SCHEDULED job has an unpublished row, and no job has two |
| JobRuns.RaisesExactly | apps/api/src/boardtrace_api/analysis/state.py:32-34 | which calls raise: cancelling a leased job, an unsupported terminal target, and negative jitter on a retryable expired lease |
| JobRuns.FailedPublishBacksOff | apps/api/src/boardtrace_api/services/analysis_jobs.py:229-239 | a failed publication makes its row due 30 to 900 s later and leaves the job alone |
| JobRuns.FinishTimestamp | apps/api/src/boardtrace_api/repositories/analysis_jobs.py:347-370 | a step into a terminal status sets `finished_at` exactly unless it is the failure inside `recover_expired_lease` |
| JobRuns.RecoveryForgetsFinishTime | apps/api/src/boardtrace_api/repositories/analysis_jobs.py:347-370 | a run that ends FAILED without `finished_at` |
| JobRuns.BoundHoldsExactly | apps/api/src/boardtrace_api/repositories/analysis_jobs.py:193-293 | at the end of any run `lease_generation` is within max_attempts / 2 + 1 and `attempt_count` within max_attempts + 1 exactly if no claim and no `schedule_retry` of the run was accepted with the count already above max_attempts |
| JobRuns.LeasesBoundedExactly | apps/api/src/boardtrace_api/repositories/analysis_jobs.py:193-208 | `lease_generation` alone is within max_attempts / 2 + 1 exactly if no claim was |
| JobRuns.LimitHoldsExactly | apps/api/src/boardtrace_api/repositories/analysis_jobs.py:265-381 | the sharper limit, which allows only max_attempts / 2 leases once all were given back, holds exactly if no `schedule_retry` was accepted with the attempts used up |
| JobRuns.GenerationBound | apps/api/src/boardtrace_api/repositories/analysis_jobs.py:265-381 | each such retry costs at most one lease more, and `attempt_count` stays within max_attempts + 1 plus two for each |
| JobRuns.StatusChangeLowersMeasure | apps/api/src/boardtrace_api/repositories/analysis_jobs.py:193-381 | a lexicographic measure falls at every status change and is otherwise unchanged |
| JobRuns.StatusChangesBounded | apps/api/src/boardtrace_api/repositories/analysis_jobs.py:193-381 | so a new job changes its status a bounded number of times, the bound counting only such retries |
| JobRuns.WorkerRetriesAreUnbounded | apps/api/src/boardtrace_api/repositories/analysis_jobs.py:265-293 | `schedule_retry` does not look at `max_attempts`: some run reaches any generation, whatever the limit |
| JobEffects.FreshExactly | apps/api/src/boardtrace_api/repositories/analysis_jobs.py:59-108 | a new row column by column |
| JobEffects.EnsureOutboxExactly | apps/api/src/boardtrace_api/repositories/analysis_jobs.py:110-131 | the first outbox row is unpublished and due at once; the job and the other rows stay |
| JobEffects.DueExactly | apps/api/src/boardtrace_api/repositories/analysis_jobs.py:133-145 | a row is due exactly when it is unpublished and its next attempt is not ahead |
| JobEffects.PublishExactly | apps/api/src/boardtrace_api/repositories/analysis_jobs.py:147-160 | publishing marks exactly a due row, with its time, and queues exactly a PENDING or RETRY_SCHEDULED job |
| JobEffects.PublishFailureExactly | apps/api/src/boardtrace_api/repositories/analysis_jobs.py:162-167 | a failed publication counts the attempt and puts the row off by 30, 60, 120, 240, 480 or 900 s |
| JobEffects.ClaimExactly | apps/api/src/boardtrace_api/repositories/analysis_jobs.py:193-208 | a claim is accepted exactly for a QUEUED row; worker, heartbeat, lease end `now + lease_seconds`, generation and attempt count are set, the rest stays |
| JobEffects.StartExactly | apps/api/src/boardtrace_api/repositories/analysis_jobs.py:210-223 | a start is accepted exactly for the holder of a CLAIMED row and changes its status alone |
| JobEffects.HeartbeatExactly | apps/api/src/boardtrace_api/repositories/analysis_jobs.py:225-244 | a heartbeat is accepted exactly for the holder of a lease that has not run out and moves its end to `now + lease_seconds` |
| JobEffects.CompleteExactly | apps/api/src/boardtrace_api/repositories/analysis_jobs.py:246-263 | a completion is accepted exactly for the holder of a RUNNING row; both times are set and the lease is dropped |
| JobEffects.ScheduleRetryExactly | apps/api/src/boardtrace_api/repositories/analysis_jobs.py:265-293 | a retry is accepted exactly for the holder of a lease; its time stands on the row and on the new outbox row, and one more attempt is counted |
| JobEffects.FailExactly | apps/api/src/boardtrace_api/repositories/analysis_jobs.py:295-320 | a failure is accepted exactly for the holder of an unfinished row; both times are set and the lease is dropped |
| JobEffects.TerminalizeExactly | apps/api/src/boardtrace_api/repositories/analysis_jobs.py:322-345 | which terminalizations are accepted, which raise, and what they write |
| JobEffects.RecoverExactly | apps/api/src/boardtrace_api/repositories/analysis_jobs.py:347-381 | a lease that has run out is recovered to FAILED when the attempts are used up, else to a retry after the delay of the policy, which alone can raise |
| JobEffects.LeaseLasts | apps/api/src/boardtrace_api/repositories/analysis_jobs.py:193-244 | over any events that neither renew nor give back the lease of a claim, it stays its worker's and has run out exactly from `now + lease_seconds` on |
| Leases.RunsOutOnTime | apps/api/src/boardtrace_api/repositories/analysis_jobs.py:347-397 | so the sweep lists the job, and the recovery takes its lease, exactly from that second on |
| Leases.RenewableInTime | apps/api/src/boardtrace_api/repositories/analysis_jobs.py:225-244 | until then, and no longer, its own worker can renew it, and nobody else ever can |
| Leases.WritableInTime | apps/api/src/boardtrace_api/repositories/analysis_results.py:45-77 | and a result passes the authority check from its own worker, once started, exactly until then, for the job's own unpublished game |
| JobTable.Table.EnsureOutbox | apps/api/src/boardtrace_api/repositories/analysis_jobs.py:110-131 | inserts the first outbox row once |
| JobTable.Table.MarkOutboxPublished | apps/api/src/boardtrace_api/repositories/analysis_jobs.py:147-160 | fires one publication and keeps other rows due |
| JobTable.Table.RecordOutboxFailure | apps/api/src/boardtrace_api/repositories/analysis_jobs.py:162-167 | fires one failed publication and keeps other rows due |
| JobTable.Table.ClaimJob | apps/api/src/boardtrace_api/repositories/analysis_jobs.py:193-208 | fires one claim, and returns the claimed row exactly when it was accepted: CLAIMED for this worker, heartbeat now, lease until `now + lease_seconds`, generation and attempts one more, the rest as it was |
| JobTable.Table.StartJob | apps/api/src/boardtrace_api/repositories/analysis_jobs.py:210-223 | fires one start, True exactly when accepted |
| JobTable.Table.HeartbeatJob | apps/api/src/boardtrace_api/repositories/analysis_jobs.py:225-244 | fires one heartbeat, True exactly when accepted: heartbeat now, lease until `now + lease_seconds`, the rest as it was |
| JobTable.Table.CompleteJob | apps/api/src/boardtrace_api/repositories/analysis_jobs.py:246-263 | fires one completion, True exactly when accepted |
| JobTable.Table.ScheduleRetry | apps/api/src/boardtrace_api/repositories/analysis_jobs.py:265-293 | fires one worker retry, row and outbox together |
| JobTable.Table.FailJob | apps/api/src/boardtrace_api/repositories/analysis_jobs.py:295-320 | fires one owned failure, True exactly when accepted |
| JobTable.Table.TerminalizeJob | apps/api/src/boardtrace_api/repositories/analysis_jobs.py:322-345 | fires one terminalization, raising exactly when the transition is not allowed |
| JobTable.Table.RecoverExpiredLease | apps/api/src/boardtrace_api/repositories/analysis_jobs.py:347-381 | fires one lease recovery, to FAILED or RETRY_SCHEDULED, raising exactly when the backoff does |
| JobTable.Table.Mutate | apps/api/src/boardtrace_api/repositories/analysis_jobs.py:110-381 | every event of a row is what its mutator does to the tables |
| JobTable.Table.ListPublishable | apps/api/src/boardtrace_api/repositories/analysis_jobs.py:133-145 | lists the oldest rows that are unpublished, due and not locked, at most `limit` of them, and leaves one out only for the limit |
| JobTable.Table.PublishBatch | apps/api/src/boardtrace_api/services/analysis_jobs.py:227-269 | the loop is one event per listed row and counts the rows the broker took; an exception it does not catch leaves the tables as they were |
| JobTable.Table.PublishDue | apps/api/src/boardtrace_api/services/analysis_jobs.py:225-269 | the query and the loop together, committed or rolled back; the number returned is that of the messages the broker took |
| JobTable.RoundPublishes | apps/api/src/boardtrace_api/services/analysis_jobs.py:225-269 | a due row is published exactly if it was listed and its message was sent, and below the limit every due row is listed |
| JobTable.BatchOutcome | apps/api/src/boardtrace_api/services/analysis_jobs.py:225-269 | after a batch of distinct due rows, a row is published exactly if its message was sent |
| JobTable.BatchFrame | apps/api/src/boardtrace_api/services/analysis_jobs.py:225-269 | rows outside the batch are as they were |
| Retry.DelayBounds | apps/api/src/boardtrace_api/analysis/retry.py:35-43 | the delay is an answer exactly for positive attempts and non-negative jitter, between base and max plus max jitter |
| Retry.DelayExactly | apps/api/src/boardtrace_api/analysis/retry.py:35-43 | the delay is the base at the first attempt, doubles with every further one up to the 31st, never beyond the maximum, and takes jitter on top up to its own bound |
| Retry.PublisherDelays | apps/api/src/boardtrace_api/services/analysis_jobs.py:222-239 | for the publisher that is 30, 60, 120, 240, 480 and then 900 s |
| Retry.DelayMonotone | apps/api/src/boardtrace_api/analysis/retry.py:35-43 | the delay never falls as attempts grow |
| Retry.CapIsInvisible | apps/api/src/boardtrace_api/analysis/retry.py:36-38 | capping the exponent at 30 is invisible whenever max <= base * 2^30 |
| Retry.CapShowsOtherwise | apps/api/src/boardtrace_api/analysis/retry.py:36-38 | and above that bound it does show |
| Retry.PublisherBackoff | apps/api/src/boardtrace_api/services/analysis_jobs.py:222-239 | the publisher policy waits 30 to 900 s, and 900 s from the sixth attempt on |
| Worker.ReleaseCapacity | apps/api/src/boardtrace_api/worker.py:275-309 | releasing a terminal job is a run of the protocol: completion script, then at most one commit; the slots are those after the completion, and a promoted PENDING job has its first outbox row |
| Worker.TerminalizeExternalFailure | apps/api/src/boardtrace_api/worker.py:312-332 | so is the external failure with its release: an unfinished row is FAILED from `now` on and its slot is free, any other leaves both stores alone |
| Worker.EndJob | apps/api/src/boardtrace_api/worker.py:178-215 | so is the completing or failing write of `_run_analysis` with its release, which runs exactly if the write was accepted |
| Worker.ReleaseFrees | apps/api/src/boardtrace_api/worker.py:275-309 | releasing a finished job frees its slot and leaves its row |
| Worker.HandleFailure | apps/api/src/boardtrace_api/worker.py:201-231 | so is the exception handler, replying what it wrote |
| Worker.FinishTask | apps/api/src/boardtrace_api/worker.py:168-231 | so is `_run_analysis` from the analysis on. COMPLETED exactly if the call found its run published, or the analysis finished and the row is RUNNING under this worker and generation; then the row SUCCEEDED at that time and the slot is free. FAILED or RETRY_SCHEDULED, with the time of the failure or the retry on the row, exactly if the worker still holds the row, unfinished or under its lease; otherwise it is rejected and both stores stay |
| Worker.FinishAnswers | apps/api/src/boardtrace_api/worker.py:168-231 | the five replies from the row as it stands: its status, worker and generation |
| Worker.FinishWrites | apps/api/src/boardtrace_api/worker.py:178-231 | and what each of them leaves in the two stores |
| Worker.FinishFrees | apps/api/src/boardtrace_api/worker.py:199-215 | COMPLETED and FAILED end the job and free its slot |
| Worker.EndingHandsOn | apps/api/src/boardtrace_api/worker.py:275-294 | the freed slot goes to the first waiter, which gets its first outbox row if it is still PENDING |
| Worker.FinishKeeps | apps/api/src/boardtrace_api/worker.py:215-231 | every other reply leaves Redis alone, and Postgres too unless a retry was scheduled |
| Worker.LateWorker | apps/api/src/boardtrace_api/worker.py:178-231 | whatever happened in between, a worker whose generation is over never changes its row: it is rejected and changes neither store, or finds its run published and repeats the release, which changes nothing once the slot is free |
| Worker.TerminalizeEach | apps/api/src/boardtrace_api/worker.py:346-361 | the loop of both sweeps is the run of its failures and counts the accepted ones |
| Worker.ListExpiredActive | apps/api/src/boardtrace_api/repositories/analysis_jobs.py:386-397 | lists the leases that ran out first, at most `limit` of them |
| Worker.SweepLifecycle | apps/api/src/boardtrace_api/worker.py:335-361 | an uninterrupted sweep leaves no overdue waiter, works through the two lists, and returns the number of jobs it finished |
| Worker.SweepClears | apps/api/src/boardtrace_api/worker.py:335-361 | below the limit of its query, and so in every reachable system, it leaves no lease that has run out |
| Worker.SweepEnds | apps/api/src/boardtrace_api/worker.py:335-361 | in a reachable system every unfinished job the sweep lists ends FAILED at the time of the sweep, with no slot and no place |
| Worker.FailuresEnd | apps/api/src/boardtrace_api/worker.py:355-361 | the failure loop does so with every unfinished job it is given that does not wait |
| Worker.FailureProgress | apps/api/src/boardtrace_api/worker.py:355-361 | a failure loop finishes exactly the listed jobs and queues nobody |
| Handlers.AdmitPendingJob | apps/api/src/boardtrace_api/api/v1/endpoints/ingestion.py:87-109 | the handler asks Redis once or twice, commits the first row exactly on ACTIVE, and raises exactly on ACTIVE for a job without a row |
| Handlers.AnswerExactly | apps/api/src/boardtrace_api/api/v1/endpoints/ingestion.py:87-109 | a job that already stands somewhere hears where and nothing changes; any other is admitted, queued or refused as the queue stands |
| Handlers.AdmissionOutcome | apps/api/src/boardtrace_api/api/v1/endpoints/ingestion.py:87-109 | ACTIVE leaves the job in a slot with its first row; any other decision leaves Postgres alone |
| Handlers.CancelWaitingJob | apps/api/src/boardtrace_api/api/v1/endpoints/ingestion.py:250-279 | cancelling is a run of the protocol, with the specified answer |
| Handlers.CancelOutcome | apps/api/src/boardtrace_api/api/v1/endpoints/ingestion.py:250-279 | uninterrupted, in a reachable system, it never crashes and cancels exactly the user's own waiting unfinished job |
| Handlers.CancelEffect | apps/api/src/boardtrace_api/api/v1/endpoints/ingestion.py:250-279 | which is then CANCELLED and out of the queue |
| Handlers.ExtendWaitingJob | apps/api/src/boardtrace_api/api/v1/endpoints/ingestion.py:287-322 | extending is a run of the protocol: two scripts, answered by what the second one reads |
| Handlers.ExtensionReported | apps/api/src/boardtrace_api/api/v1/endpoints/ingestion.py:287-322 | uninterrupted, it reports exactly the granted extensions, with the place kept and 180 s more |
| Handlers.InterruptedExtension | apps/api/src/boardtrace_api/api/v1/endpoints/ingestion.py:298-308 | with any steps between the two scripts, a granted extension is reported exactly if the job still waits at the second one, and it does unless it was cancelled or a sweep or a completion came in between |
| Handlers.ExtensionRace | apps/api/src/boardtrace_api/api/v1/endpoints/ingestion.py:298-308 | a granted extension answered as rejected: the job is promoted in between |
| FullGame.Replay | apps/api/src/boardtrace_api/analysis/full_game.py:271-293 | the replay is the game position by position, or the error names the first move that cannot be played |
| FullGame.ReplaysWalk | apps/api/src/boardtrace_api/analysis/full_game.py:277-293 | it starts from the recorded position, or else the standard one, and every next position is the last with the move played: turn passed, notation taken before the move |
| FullGame.Analyse | apps/api/src/boardtrace_api/analysis/full_game.py:165-253 | a game is rejected exactly if there is a reason, and with the first one in the order of the checks; a session that cannot be entered leaves it without a request; on every other exit: contiguous evaluated prefix, moves linking neighbours, failed ply equal to the evaluated count, and request k about board k of the game, under its position id, with the depth of the budget and the time of a position or what is left of the game's, whichever is less |
| FullGame.PlayableIsNotRefused | apps/api/src/boardtrace_api/analysis/full_game.py:255-293 | a playable game within the budget has no reason |
| FullGame.EvaluateAll | apps/api/src/boardtrace_api/analysis/full_game.py:186-253 | the loop itself, against an arbitrary clock and engine: its requests field by field, its evaluations, its moves and its checkpoint |
| FullGame.GameTimeKept | apps/api/src/boardtrace_api/analysis/full_game.py:186-199 | an engine that honours its limits ends every request, and its total time, within `max_game_time_ms` |
| Persistence.ReadGeneration | apps/api/src/boardtrace_api/services/analysis_results.py:259-334 | the reading loops equal the specification `Rebuild`, errors included |
| Persistence.RestorePositions | apps/api/src/boardtrace_api/services/analysis_results.py:272-291 | the first loop rebuilds the positions and indexes them by id, or finds a bad side |
| Persistence.RestoreMoveRows | apps/api/src/boardtrace_api/services/analysis_results.py:292-305 | the second resolves both positions of every move, or finds a dangling one |
| EngineConfig.ConfigurationRoundTrip | apps/api/src/boardtrace_api/services/analysis_results.py:106-146 | every setting is written under its own key, and every configuration snapshot is read back from its JSON object as it was |
| EngineConfig.ConfigurationsExactly | apps/api/src/boardtrace_api/services/analysis_results.py:111-146 | an object is accepted exactly if some valid snapshot writes it |
| Persistence.StoredRows | apps/api/src/boardtrace_api/repositories/analysis_results.py:80-163 | a stored result has one row for each position and move, in order of ply, with ids from run and ply, sides as w and b, and a run row with its counts, names and times |
| Persistence.SortSorts | apps/api/src/boardtrace_api/services/analysis_results.py:259-305 | sorting by ply gives the same items in order |
| Persistence.RebuildsExactly | apps/api/src/boardtrace_api/services/analysis_results.py:259-334 | any stored run can be read exactly if its rows are complete, sound, resolvable and counted; otherwise the first flaw is the error |
| Persistence.ReadBack | apps/api/src/boardtrace_api/repositories/analysis_results.py:133-163 | whatever can be stored reads back in order of ply, embedded positions resolved to the stored ones |
| Persistence.RoundTrip | apps/api/src/boardtrace_api/services/analysis_results.py:259-334 | the round trip loses nothing but FENs exactly when the result is in order, embeds its own positions, names its last ply, and has engine names of at most 100 characters |
| Persistence.LongNameExample | apps/api/src/boardtrace_api/repositories/analysis_results.py:363-365 | a result with an engine name of 101 characters, read back with another name |
| Persistence.AnalyzerResultStorable | apps/api/src/boardtrace_api/repositories/analysis_results.py:338-354 | every COMPLETE result of the analyzer passes `_validate_result` and the insert loop, with full counts, and round-trips exactly when its engine names fit |
| Persistence.ResolvableExactly | apps/api/src/boardtrace_api/repositories/analysis_results.py:151-161 | `_validate_result` lets through results whose insert loop raises KeyError: exactly those with a move and no fewer moves than positions |
| Persistence.KeyErrorExample | apps/api/src/boardtrace_api/repositories/analysis_results.py:338-354 | one position and one move: accepted, and then a KeyError |
| ResultStore.InsertPositions | apps/api/src/boardtrace_api/repositories/analysis_results.py:130-150 | the first insert loop writes the rows and the dictionary of their ids |
| ResultStore.InsertMoves | apps/api/src/boardtrace_api/repositories/analysis_results.py:152-162 | the second resolves both positions of each move or raises |
| ResultStore.StageRows | apps/api/src/boardtrace_api/repositories/analysis_results.py:80-163 | a replacement leaves exactly the new rows of the run, none of the old ones |
| ResultStore.StagedRefines | apps/api/src/boardtrace_api/repositories/analysis_results.py:80-163 | and changes no other run or job |
| ResultStore.Results.ReplaceOwnedGeneration | apps/api/src/boardtrace_api/repositories/analysis_results.py:45-163 | stages the replacement exactly for the lease holder with a storable result, and names the error otherwise |
| ResultStore.Results.AvailableGeneration | apps/api/src/boardtrace_api/repositories/analysis_results.py:165-200 | finds exactly the published generation |
| ResultStore.Results.MayMakeAvailable | apps/api/src/boardtrace_api/repositories/analysis_results.py:202-259 | decides the release checks on the staged rows |
| ResultStore.Results.CompleteAndRelease | apps/api/src/boardtrace_api/repositories/analysis_results.py:202-259 | completes the job, publishes the game and cleans up, or rolls everything back |
| ResultStore.Results.PersistAndComplete | apps/api/src/boardtrace_api/services/analysis_results.py:195-257 | one transaction over results, job and game: all of its writes, field by field as in `ReleaseEffects.Publication`, or none |
| ResultStore.Results.PersistOwned | apps/api/src/boardtrace_api/services/analysis_results.py:165-193 | the replacement alone, which reads back as written, or nothing |
| ResultStore.Results.DeleteForJob | apps/api/src/boardtrace_api/services/analysis_cleanup.py:25-43 | clears moves, initial position and payload hash of the job's game and nothing else |
| ResultStore.Results.FailAndClean | apps/api/src/boardtrace_api/services/analysis_jobs.py:107-129 | a failure commits with its cleanup, or neither happens |
| ResultStore.Results.TerminalizeAndClean | apps/api/src/boardtrace_api/services/analysis_jobs.py:173-194 | so does a terminalization; an exception leaves everything as it was |
| ResultStore.Results.ConsumePublicGeneration | apps/api/src/boardtrace_api/repositories/analysis_results.py:308-323 | deletes the run with its rows and locks the game again, FINISHED and with no time of availability, or does nothing |
| ResultStore.Results.CreateForCompletedGame | apps/api/src/boardtrace_api/services/analysis_jobs.py:56-90 | an ineligible game is refused, a game keeps the one job it has, and a new job is PENDING with one attempt at most |
| ResultStore.Results.JobFor | apps/api/src/boardtrace_api/repositories/analysis_jobs.py:45-57 | the unique index finds the job of a game or there is none |
| Release.AtMostOnce | apps/api/src/boardtrace_api/repositories/analysis_results.py:165-259 | in every run an available game has a succeeded job and a whole, readable run of its generation; at most one result is delivered, and it is the published one |
| Release.ActsInv | apps/api/src/boardtrace_api/services/analysis_results.py:218-250 | the release law is kept by every transaction |
| Release.NeverAgain | apps/api/src/boardtrace_api/repositories/analysis_results.py:308-323 | after a delivery or a terminal failure no run makes the game available, and every finalization rolls back |
| Release.FinalizeAgain | apps/api/src/boardtrace_api/repositories/analysis_results.py:165-200 | until the delivery, finalizing the published generation again changes nothing and answers with it |
| Release.PublishesExactly | apps/api/src/boardtrace_api/repositories/analysis_results.py:202-259 | finalization publishes exactly for the lease holder in time, with a storable result that covers the whole game |
| ReleaseEffects.PublicationExactly | apps/api/src/boardtrace_api/services/analysis_results.py:218-250 | what a publication leaves: the run reads back as written, the job SUCCEEDED and the game available from the time of the write, its submitted data gone, nothing else changed |
| ReleaseEffects.FinalizeReplies | apps/api/src/boardtrace_api/services/analysis_results.py:195-257 | the three answers over every reachable history: the existing run, the publication, or the first failing check with nothing changed |
| ReleaseEffects.PersistsExactly | apps/api/src/boardtrace_api/services/analysis_results.py:165-193 | persisting writes exactly the run of its generation, or names the first failing check |
| ReleaseEffects.ConsumesExactly | apps/api/src/boardtrace_api/repositories/analysis_results.py:308-323 | consuming takes exactly the run away and locks the game |
| ReleaseEffects.CleansExactly | apps/api/src/boardtrace_api/services/analysis_cleanup.py:25-43 | an accepted terminal failure deletes exactly the submitted data |
| Release.AnalysisPublishes | apps/api/src/boardtrace_api/services/analysis_results.py:195-250 | for the analyzer's own COMPLETE result the lease is the only condition left |
| Release.ResultFencing | apps/api/src/boardtrace_api/repositories/analysis_results.py:65-77 | no result write carrying a finished generation changes anything, in any later state |
| Release.CleanupExactly | apps/api/src/boardtrace_api/services/analysis_cleanup.py:25-43 | the step that ends a job deletes its game's data exactly unless it is the lease recovery, which leaves the game as it was |
| Release.CleanedExactly | apps/api/src/boardtrace_api/services/analysis_cleanup.py:25-43 | so after any run that ends the job the data is gone exactly unless the lease recovery ended it |
| Release.RecoveryKeepsData | apps/api/src/boardtrace_api/repositories/analysis_jobs.py:347-370 | a run in which the data of a failed job stays |
| Release.LoadThenConsume | apps/api/src/boardtrace_api/services/analysis_delivery.py:60-88 | a load followed by its consumption delivers the published run |
| Release.LoadedIsServedOnce | apps/api/src/boardtrace_api/services/analysis_delivery.py:70-88 | whatever transactions follow a load, what was loaded can be consumed exactly until somebody is served, and it is still what was loaded |
| GameRuns.SeenFromOneJob | apps/api/src/boardtrace_api/repositories/analysis_results.py:45-323 | seen from one job, a run of the world is a run of its release |
| GameRuns.RowEventsAreActs | apps/api/src/boardtrace_api/repositories/analysis_jobs.py:110-381 | a mutator of the job table that leaves the game alone changes the record of its job as its act does |
| GameRuns.ServeEvent | apps/api/src/boardtrace_api/repositories/analysis_jobs.py:110-381 | on tables that stand where a world says, each mutator leaves them where the world stands after its act |
| GameRuns.ServeCreate | apps/api/src/boardtrace_api/services/analysis_jobs.py:56-90 | so does creating the job of a completed game |
| GameRuns.ServeFinalize | apps/api/src/boardtrace_api/services/analysis_results.py:195-257 | so does finalizing |
| GameRuns.ServePersist | apps/api/src/boardtrace_api/services/analysis_results.py:165-193 | so does persisting |
| GameRuns.ServeFail | apps/api/src/boardtrace_api/services/analysis_jobs.py:107-129 | so does failing with its cleanup |
| GameRuns.ServeTerminalize | apps/api/src/boardtrace_api/services/analysis_jobs.py:173-194 | so does terminalizing with its cleanup |
| GameRuns.ServeLoad | apps/api/src/boardtrace_api/repositories/analysis_results.py:274-306 | a load finds what the world has published |
| GameRuns.ServeConsume | apps/api/src/boardtrace_api/repositories/analysis_results.py:308-323 | consuming what was loaded leaves the tables where the world stands after it |
| GameRuns.ServeAll | apps/api/src/boardtrace_api/repositories/analysis_results.py:165-323 | from empty job tables, any requests in any order leave the tables where some run of the world leads; no job is served twice, what is served is the run published for it, and every available game has a succeeded job and a whole stored run |
| GameRuns.SharedAtMostOnce | apps/api/src/boardtrace_api/repositories/analysis_results.py:165-323 | in every run of the world every game has one job, every job delivered at most one result, the one published for it, and every available game has a whole stored run |
| GameRuns.SharedNeverAgain | apps/api/src/boardtrace_api/repositories/analysis_results.py:308-323 | in the world a game that was delivered or failed stays unavailable, whatever happens to the others |
| MoveMetrics.DerivesExactly | apps/api/src/boardtrace_api/analysis/move_metrics.py:118-123 | deriving succeeds exactly for positive plies whose moves pass the turn, one metric per move |
| MoveMetrics.DerivedCoherent | apps/api/src/boardtrace_api/analysis/move_metrics.py:125-155 | a derived metric sees both positions as the mover does; its outcome and the existence of a loss follow from the kinds of the two scores, and the loss is their sum, clamped at zero |
| MoveMetrics.Telescopes | apps/api/src/boardtrace_api/analysis/move_metrics.py:118-176 | over a continuous game in centipawns White's raw losses minus Black's equal the fall of the evaluation in White's view |
| MoveClassification.FollowsPolicy | apps/api/src/boardtrace_api/analysis/move_classification.py:98-188 | every derived metric gets the quality and the reason of the policy stated by standings, and UNCLASSIFIED exactly without standings |
| MoveClassification.RejectsExactly | apps/api/src/boardtrace_api/analysis/move_classification.py:98-200 | of any metric the classifier rejects exactly malformed moves and inconsistent centipawn fields; "bypassed precedence" is unreachable |
| GameMetrics.HalfUpExactly | apps/api/src/boardtrace_api/analysis/game_metrics.py:123-129 | the rounded quotient is the one integer within a half of the true one, ties upwards |
| GameMetrics.AcplWithinHalf | apps/api/src/boardtrace_api/analysis/game_metrics.py:123-129 | the rounded ACPL is within 0.005 of the true mean |
| GameMetrics.AccuracyExactly | apps/api/src/boardtrace_api/analysis/game_metrics.py:35-39 | the accuracy is 100 * scale / (scale + ACPL) to the nearest hundredth, ties upwards, as a two-sided inequality for every ACPL; it raises exactly below zero |
| GameMetrics.PercentageExactly | apps/api/src/boardtrace_api/analysis/game_metrics.py:150-155 | a percentage is 100 * part / whole to the nearest hundredth, ties upwards |
| GameMetrics.DecimalContextHarmless | apps/api/src/boardtrace_api/analysis/game_metrics.py:113-116 | computing a quotient to 28 digits and then rounding it to two places gives what rounding the exact quotient gives, for quotients up to 10^10 and denominators up to 10^14 |
| GameMetrics.AccuracyBounds | apps/api/src/boardtrace_api/analysis/game_metrics.py:35-39 | accuracy lies in 0..100 and is 100.00 exactly up to an ACPL of scale / 199.99 |
| GameMetrics.FullAccuracy | apps/api/src/boardtrace_api/analysis/game_metrics.py:35-39 | with the default scale 100.00 means an ACPL of 0.00, which losses below half a hundredth a move still round to |
| GameMetrics.LossRoundsAway | apps/api/src/boardtrace_api/analysis/game_metrics.py:35-39 | one centipawn lost in 201 moves gives 100.00 |
| GameMetrics.RisingLosses | apps/api/src/boardtrace_api/analysis/game_metrics.py:35-39 | raising any losses never raises the accuracy |
| GameMetrics.FullCoverage | apps/api/src/boardtrace_api/analysis/game_metrics.py:150-155 | coverage is 100.00 exactly when at most one move in 20000 is missing, so below 20000 moves exactly when none is |
| GameMetrics.CoverageRoundsUp | apps/api/src/boardtrace_api/analysis/game_metrics.py:150-155 | from 20000 moves on an uncounted move does round away |
| GameMetrics.OrderIsIrrelevant | apps/api/src/boardtrace_api/analysis/game_metrics.py:96-147 | a summary does not depend on the order of the moves |
| Pipeline.ComposesExactly | apps/api/src/boardtrace_api/services/analysis_aggregates.py:54-74 | over a valid snapshot the pipeline succeeds exactly when game ids match, moves pass the turn and reference moves are well formed; the final check then always passes |
| Pipeline.AggregateWorks | apps/api/src/boardtrace_api/services/analysis_aggregates.py:128-157 | the summaries of coherent metrics always partition and add up |
| Pipeline.SummaryMeans | apps/api/src/boardtrace_api/analysis/game_metrics.py:96-147 | what a summary says: the ACPL is the mean loss to within 0.005, the accuracy what the scale makes of it and the coverages shares of the moves, all to the nearest hundredth; they exist when there is something to rate, and full coverage misses at most one move in 20000 |
| Pipeline.SummaryCounts | apps/api/src/boardtrace_api/analysis/game_metrics.py:96-147 | what it counts: every move once, by whether it has a loss and by its quality, as numbers of places in the list |
| Pipeline.AggregateSplits | apps/api/src/boardtrace_api/analysis/game_metrics.py:71-94 | the summary of each player is that of the moves of their own colour, all of them |
| Pipeline.SummedLossSplits | apps/api/src/boardtrace_api/analysis/game_metrics.py:101-110 | a player's summed loss exceeds the raw losses by exactly the clamped amounts |
| Pipeline.SummariesConserve | apps/api/src/boardtrace_api/analysis/game_metrics.py:101-110 | the difference of the summed losses is the evaluation White lost plus the difference of the clamped amounts |
| Delivery.MapPublicAnalysis | apps/api/src/boardtrace_api/services/analysis_delivery.py:98-136 | the mapping loop succeeds exactly for mappable analyses and says of every move, field by field, what was classified and stored, with each player's summary under their own colour |
| Delivery.IndexByPly | apps/api/src/boardtrace_api/services/analysis_delivery.py:169-176 | the dictionary of stored moves, as long as the list exactly if the plies are unique |
| Delivery.AnalyzedGameDelivers | apps/api/src/boardtrace_api/services/analysis_delivery.py:98-136 | a COMPLETE analysis is stored, read and composed without an exception; from whatever position the game started, it is deliverable exactly if its movers, moves and notation, and the engine's best moves, fit a game from the standard position |
| Delivery.MappableExactly | apps/api/src/boardtrace_api/services/analysis_delivery.py:102-130 | the mapping step of it |
| Delivery.CustomStartExample | apps/api/src/boardtrace_api/services/analysis_delivery.py:102-115 | for either side to move, a game from another position that is analysed and composed and cannot be delivered |
| Delivery.StandardDeliverable | apps/api/src/boardtrace_api/services/analysis_delivery.py:98-136 | from the standard position only the legality of the engine's best moves is left |
| Delivery.OtherSideUndeliverable | apps/api/src/boardtrace_api/services/analysis_delivery.py:102-112 | a game the other side begins is never deliverable |
| Delivery.GameComposes | apps/api/src/boardtrace_api/services/analysis_reads.py:94-123 | what is read back of an analysed game is a valid snapshot on which the pipeline succeeds |
| Delivery.LoadForOwner | apps/api/src/boardtrace_api/services/analysis_delivery.py:60-74 | the reading part gives the response of the published run, only to the owner of an available verified game, or the error, NOT FOUND for anybody else, and writes nothing |
| Delivery.HandOut | apps/api/src/boardtrace_api/services/analysis_delivery.py:75-88 | the rest consumes the run and hands the response out, or finds it consumed already |
| Delivery.ReadForOwner | apps/api/src/boardtrace_api/services/analysis_delivery.py:55-88 | uninterrupted, a read delivers and consumes, only for the owner of an available verified game, or answers an error and changes nothing; any other user is told NOT FOUND |
| Delivery.ServedExactly | apps/api/src/boardtrace_api/services/analysis_delivery.py:55-88 | in every reachable history the owner of an available verified game is served exactly if its run rebuilds, is valid, composes and maps; NOT FOUND is the answer exactly to everybody else |
| Delivery.OwnerIsServed | apps/api/src/boardtrace_api/services/analysis_delivery.py:55-136 | from the engine to the owner: once the analysis of the stored game is published, its owner is served exactly if game and best moves fit the standard position |
| Delivery.InterruptedDelivery | apps/api/src/boardtrace_api/services/analysis_delivery.py:70-88 | whatever comes between the two parts, the response is handed out exactly if nobody else was served, from the rows it was made of |
| Delivery.DeliveryIsARun | apps/api/src/boardtrace_api/services/analysis_delivery.py:55-88 | a delivery is a load and its consumption, hands out what finalization published, and cannot be repeated |
| Sessions.ChainsStay | apps/api/src/boardtrace_api/auth/service.py:58-125 | after any requests every family is one replacement chain of one user |
| Sessions.OneLivePerFamily | apps/api/src/boardtrace_api/auth/service.py:75-106 | in every reachable book at most one session of a family is live, the one issued last |
| Sessions.ReplayKillsFamily | apps/api/src/boardtrace_api/auth/service.py:83-94 | replaying an unexpired revoked token is denied, revokes its whole family from now on and touches no other session |
| Sessions.RefreshExactly | apps/api/src/boardtrace_api/auth/service.py:75-106 | a refresh succeeds exactly for a live, unexpired session of an active user; the new session lives for the full lifetime from now on, the old one is revoked for it, no other changes |
| Sessions.DeniedQuietly | apps/api/src/boardtrace_api/auth/service.py:81-98 | expiry or a deactivated user denies without changing anything |
| Sessions.NeverExchangedAgain | apps/api/src/boardtrace_api/auth/service.py:75-106 | each token is exchanged at most once |
| Sessions.DeadForever | apps/api/src/boardtrace_api/auth/service.py:83-125 | a fully revoked family never has a live session again |
| Sessions.AuthenticationService.IssuePair | apps/api/src/boardtrace_api/auth/service.py:58-73 | adds one live session to its family |
| Sessions.AuthenticationService.SignIn | apps/api/src/boardtrace_api/auth/service.py:27-56 | register and login end by opening a family of one session that lives for the full lifetime |
| Sessions.AuthenticationService.RefreshToken | apps/api/src/boardtrace_api/auth/service.py:75-106 | the method is the specified refresh, reply and rows included |
| Sessions.AuthenticationService.RevokeAllOf | apps/api/src/boardtrace_api/auth/service.py:87-93 | the loop revokes exactly the family |
| Sessions.AuthenticationService.RevokeOne | apps/api/src/boardtrace_api/auth/service.py:108-115 | revokes one live session |
| Sessions.UninterruptedLogout | apps/api/src/boardtrace_api/auth/service.py:117-125 | with nothing in between, `revoke_all` revokes every live session of the user |
| Sessions.InterruptedLogout | apps/api/src/boardtrace_api/auth/service.py:117-125 | with requests between its query and its writes, it leaves live exactly the sessions issued in between |
| Sessions.LogoutRace | apps/api/src/boardtrace_api/auth/service.py:117-125 | which happens: a refresh in between leaves its new session live |
| Sessions.AuthenticationService.WriteRevoked | apps/api/src/boardtrace_api/auth/service.py:118-125 | the loop writes exactly the listed sessions, whatever became of them since |
| Sessions.AuthenticationService.RevokeAllSessions | apps/api/src/boardtrace_api/auth/service.py:117-125 | query and loop together, uninterrupted |

## Left out

- Liveness: the broker message is sent before the publication commits, and an early delivery is dropped by `claim_job`; deliveries are arbitrary and only safety is proved.
- Capacity leaks: a crash between the Redis step and the Postgres step can leave a slot held, so no theorem says that every active entry has a live job.
- Calls without a `lease_generation` and worker ids over 255 characters: the worker never makes them.
- The claim, start and authority check at the head of `_run_analysis` are single protocol steps or reads; only what follows the analysis is a procedure.
- `heartbeat_job` and `recover_expired_lease` have no caller in the worker; they are events anyone may fire at any time.
- The single commit of a `publish_due` batch: `Protocol` fires its rows one by one, which allows every run the code has and more.
- ResultStore.Results.PersistAndComplete: column lengths of UCI and SAN strings are not modelled; those strings come from the chess library and fit.
- Chess rules, SAN, FEN and UCI parsing and Stockfish: a board is a side to move and an opaque rest, the rules are parameters.
- Passwords, access tokens, the rate limiter, the browser extension, the web client, observability, configuration and migrations.
- Deletion of rows by cascade from users and games, and the immediate admission adapter for development.
