/**
 What each mutator of `repositories/analysis_jobs.py` accepts and what it leaves of the row,
 column by column: the statuses it works from, the lease it checks, the times it writes, and
 what it must not touch.
 */
module JobEffects {
  import opened Common
  import opened Retry
  import opened JobLifecycle

  /** The columns no mutator writes. */
  predicate SameIdentity(job: Job, job': Job) {
    job'.owner == job.owner && job'.maxAttempts == job.maxAttempts
  }

  predicate SameLease(job: Job, job': Job) {
    && job'.worker == job.worker && job'.leaseExpires == job.leaseExpires && job'.heartbeat == job.heartbeat
    && job'.generation == job.generation
  }

  predicate SameTimes(job: Job, job': Job) {
    && job'.nextAttempt == job.nextAttempt && job'.completedAt == job.completedAt
    && job'.failedAt == job.failedAt && job'.finishedAt == job.finishedAt
  }

  /** The lease is given back, and its generation stays on record. */
  predicate LeaseDropped(job: Job, job': Job) {
    job'.worker.None? && job'.leaseExpires.None? && job'.heartbeat.None? && job'.generation == job.generation
  }

  /** The row is leased to this worker under this generation. */
  predicate Holds(job: Job, w: WorkerId, g: nat) {
    job.worker == Some(w) && job.generation == g
  }

  /** A new row is PENDING, never leased and never finished, and has no outbox row. */
  lemma FreshExactly(owner: UserId, maxAttempts: nat)
    ensures var e := Fresh(owner, maxAttempts);
            && e.job.owner == owner && e.job.maxAttempts == maxAttempts
            && e.job.status == PENDING && e.job.attempts == 0 && e.job.generation == 0
            && e.job.worker.None? && e.job.leaseExpires.None? && e.job.heartbeat.None?
            && e.job.nextAttempt.None? && e.job.completedAt.None? && e.job.failedAt.None? && e.job.finishedAt.None?
            && e.outbox == map[]
  {
  }

  /** The first outbox row is inserted once, due at once; every other row and the job stay. */
  lemma EnsureOutboxExactly(e: Entry)
    ensures Decide(e, EnsureOutbox).Applied?
    ensures var e' := After(e, EnsureOutbox);
            && e'.job == e.job && e'.outbox.Keys == e.outbox.Keys + {0}
            && (forall k :: k in e.outbox ==> e'.outbox[k] == e.outbox[k])
            && (0 !in e.outbox ==>
                  && !e'.outbox[0].published && e'.outbox[0].attempts == 0
                  && e'.outbox[0].nextAttempt.None? && e'.outbox[0].publishedAt.None?)
  {
  }

  /** A row is due when it is unpublished and its next attempt, if it has one, is not ahead. */
  lemma DueExactly(row: OutboxRow, now: int)
    ensures row.Due(now) <==> !row.published && (row.nextAttempt == None || row.nextAttempt.value <= now)
  {
  }

  /** Publishing a due row marks it with its time and queues a PENDING or RETRY_SCHEDULED job. */
  lemma PublishExactly(e: Entry, k: nat, now: int)
    ensures var verdict := Decide(e, Publish(k, now));
            !verdict.Raised? && (verdict.Applied? <==> k in e.outbox && e.outbox[k].Due(now))
    ensures Decide(e, Publish(k, now)).Applied? ==>
              var e' := After(e, Publish(k, now));
              && e'.outbox.Keys == e.outbox.Keys
              && (forall m :: m in e.outbox && m != k ==> e'.outbox[m] == e.outbox[m])
              && e'.outbox[k].published && e'.outbox[k].publishedAt == Some(now)
              && e'.outbox[k].attempts == e.outbox[k].attempts && e'.outbox[k].nextAttempt == e.outbox[k].nextAttempt
    ensures Decide(e, Publish(k, now)).Applied? ==>
              var job, job' := e.job, After(e, Publish(k, now)).job;
              && SameIdentity(job, job') && SameLease(job, job') && SameTimes(job, job')
              && job'.attempts == job.attempts
              && job'.status == if job.status == PENDING || job.status == RETRY_SCHEDULED then QUEUED else job.status
  {
  }

  /** A failed publication counts the attempt and waits for the publisher's delay of that attempt. */
  lemma PublishFailureExactly(e: Entry, k: nat, now: int)
    ensures var verdict := Decide(e, PublishFailure(k, now));
            !verdict.Raised? && (verdict.Applied? <==> k in e.outbox && e.outbox[k].Due(now))
    ensures Decide(e, PublishFailure(k, now)).Applied? ==>
              var e' := After(e, PublishFailure(k, now));
              && e'.job == e.job && e'.outbox.Keys == e.outbox.Keys
              && (forall m :: m in e.outbox && m != k ==> e'.outbox[m] == e.outbox[m])
              && !e'.outbox[k].published && e'.outbox[k].publishedAt == e.outbox[k].publishedAt
              && e'.outbox[k].attempts == e.outbox[k].attempts + 1
              && e'.outbox[k].nextAttempt == Some(now + PublisherDelay(e.outbox[k].attempts + 1))
  {
    if k in e.outbox {
      PublisherDelays(e.outbox[k].attempts + 1);
    }
  }

  /** A claim takes a QUEUED job under a new generation, for exactly the seconds asked for. */
  lemma ClaimExactly(e: Entry, w: WorkerId, now: int, leaseSeconds: int)
    ensures var verdict := Decide(e, Claim(w, now, leaseSeconds));
            !verdict.Raised? && (verdict.Applied? <==> e.job.status == QUEUED)
    ensures e.job.status == QUEUED ==>
              var job, job' := e.job, After(e, Claim(w, now, leaseSeconds)).job;
              && job'.status == CLAIMED && job'.worker == Some(w)
              && job'.heartbeat == Some(now) && job'.leaseExpires == Some(now + leaseSeconds)
              && job'.generation == job.generation + 1 && job'.attempts == job.attempts + 1
              && SameIdentity(job, job') && SameTimes(job, job')
    ensures After(e, Claim(w, now, leaseSeconds)).outbox == e.outbox
  {
  }

  /** Only the holder of a CLAIMED job starts it, and only its status changes. */
  lemma StartExactly(e: Entry, w: WorkerId, g: nat, now: int)
    ensures var verdict := Decide(e, Start(w, g, now));
            !verdict.Raised? && (verdict.Applied? <==> e.job.status == CLAIMED && Holds(e.job, w, g))
    ensures Decide(e, Start(w, g, now)).Applied? ==>
              var job, job' := e.job, After(e, Start(w, g, now)).job;
              && job'.status == RUNNING && job'.attempts == job.attempts
              && SameIdentity(job, job') && SameLease(job, job') && SameTimes(job, job')
    ensures After(e, Start(w, g, now)).outbox == e.outbox
  {
  }

  /** Only the holder of a lease that has not run out renews it, from now on. */
  lemma HeartbeatExactly(e: Entry, w: WorkerId, g: nat, now: int, leaseSeconds: int)
    ensures var verdict := Decide(e, Heartbeat(w, g, now, leaseSeconds));
            && !verdict.Raised?
            && (verdict.Applied? <==>
                  && (e.job.status == CLAIMED || e.job.status == RUNNING) && Holds(e.job, w, g)
                  && e.job.leaseExpires.Some? && now < e.job.leaseExpires.value)
    ensures Decide(e, Heartbeat(w, g, now, leaseSeconds)).Applied? ==>
              var job, job' := e.job, After(e, Heartbeat(w, g, now, leaseSeconds)).job;
              && job'.heartbeat == Some(now) && job'.leaseExpires == Some(now + leaseSeconds)
              && job'.status == job.status && job'.worker == job.worker
              && job'.generation == job.generation && job'.attempts == job.attempts
              && SameIdentity(job, job') && SameTimes(job, job')
    ensures After(e, Heartbeat(w, g, now, leaseSeconds)).outbox == e.outbox
  {
  }

  /** Only the holder of a RUNNING job completes it; the lease is dropped and both times are set. */
  lemma CompleteExactly(e: Entry, w: WorkerId, g: nat, now: int)
    ensures var verdict := Decide(e, Complete(w, g, now));
            !verdict.Raised? && (verdict.Applied? <==> e.job.status == RUNNING && Holds(e.job, w, g))
    ensures Decide(e, Complete(w, g, now)).Applied? ==>
              var job, job' := e.job, After(e, Complete(w, g, now)).job;
              && job'.status == SUCCEEDED && job'.completedAt == Some(now) && job'.finishedAt == Some(now)
              && job'.failedAt == job.failedAt && job'.nextAttempt == job.nextAttempt
              && job'.attempts == job.attempts && LeaseDropped(job, job') && SameIdentity(job, job')
    ensures After(e, Complete(w, g, now)).outbox == e.outbox
  {
  }

  /** The job waits for its retry: one more attempt counted, its time on the job and on the new outbox row. */
  predicate WaitsForRetry(e: Entry, e': Entry, when: int) {
    && e'.job.status == RETRY_SCHEDULED && e'.job.attempts == e.job.attempts + 1 && e'.job.nextAttempt == Some(when)
    && e'.job.completedAt == e.job.completedAt && e'.job.failedAt == e.job.failedAt
    && e'.job.finishedAt == e.job.finishedAt && LeaseDropped(e.job, e'.job) && SameIdentity(e.job, e'.job)
    && e'.outbox.Keys == e.outbox.Keys + {e.job.attempts + 1}
    && (forall k :: k in e.outbox ==> e'.outbox[k] == e.outbox[k])
    && (e.job.attempts + 1 !in e.outbox ==>
          && !e'.outbox[e.job.attempts + 1].published && e'.outbox[e.job.attempts + 1].attempts == 0
          && e'.outbox[e.job.attempts + 1].nextAttempt == Some(when)
          && e'.outbox[e.job.attempts + 1].publishedAt.None?)
  }

  /** Only the holder of a lease gives the job back for a retry. */
  lemma ScheduleRetryExactly(e: Entry, w: WorkerId, g: nat, when: int)
    ensures var verdict := Decide(e, ScheduleRetry(w, g, when));
            && !verdict.Raised?
            && (verdict.Applied? <==> (e.job.status == CLAIMED || e.job.status == RUNNING) && Holds(e.job, w, g))
    ensures Decide(e, ScheduleRetry(w, g, when)).Applied? ==>
              WaitsForRetry(e, After(e, ScheduleRetry(w, g, when)), when)
  {
  }

  /** Only the holder of an unfinished job fails it. */
  lemma FailExactly(e: Entry, w: WorkerId, g: nat, now: int)
    ensures var verdict := Decide(e, Fail(w, g, now));
            && !verdict.Raised?
            && (verdict.Applied? <==> e.job.status !in {SUCCEEDED, FAILED, CANCELLED} && Holds(e.job, w, g))
    ensures Decide(e, Fail(w, g, now)).Applied? ==>
              var job, job' := e.job, After(e, Fail(w, g, now)).job;
              && job'.status == FAILED && job'.failedAt == Some(now) && job'.finishedAt == Some(now)
              && job'.completedAt == job.completedAt && job'.nextAttempt == job.nextAttempt
              && job'.attempts == job.attempts && LeaseDropped(job, job') && SameIdentity(job, job')
    ensures After(e, Fail(w, g, now)).outbox == e.outbox
  {
  }

  /** Anybody fails an unfinished job, or cancels one that is not leased; cancelling a leased one raises. */
  lemma TerminalizeExactly(e: Entry, target: Status, now: int)
    ensures var verdict := Decide(e, Terminalize(target, now));
            && (verdict.Applied? <==>
                  && e.job.status !in {SUCCEEDED, FAILED, CANCELLED}
                  && (target == FAILED || (target == CANCELLED && e.job.status !in {CLAIMED, RUNNING})))
            && (verdict.Raised? <==>
                  || target !in {FAILED, CANCELLED}
                  || (target == CANCELLED && e.job.status in {CLAIMED, RUNNING}))
    ensures Decide(e, Terminalize(target, now)).Applied? ==>
              var job, job' := e.job, After(e, Terminalize(target, now)).job;
              && job'.status == target && job'.finishedAt == Some(now)
              && job'.failedAt == (if target == FAILED then Some(now) else job.failedAt)
              && job'.completedAt == job.completedAt && job'.nextAttempt == job.nextAttempt
              && job'.attempts == job.attempts && LeaseDropped(job, job') && SameIdentity(job, job')
    ensures After(e, Terminalize(target, now)).outbox == e.outbox
  {
  }

  /** The lease of a CLAIMED or RUNNING job has run out. */
  predicate RunOut(job: Job, now: int) {
    (job.status == CLAIMED || job.status == RUNNING) && job.leaseExpires.Some? && job.leaseExpires.value <= now
  }

  /**
   A lease that has run out is recovered: to FAILED when the attempts are used up, and else to
   a retry after the policy's delay, which alone can raise.
   */
  lemma RecoverExactly(e: Entry, now: int, policy: RetryPolicy, jitter: int)
    ensures var verdict, delay := Decide(e, Recover(now, policy, jitter)), policy.Delay(e.job.attempts + 1, jitter);
            && (verdict.Refused? <==> !RunOut(e.job, now))
            && (verdict.Raised? <==> RunOut(e.job, now) && e.job.attempts < e.job.maxAttempts && delay.Err?)
    ensures RunOut(e.job, now) && e.job.attempts >= e.job.maxAttempts ==>
              var e' := After(e, Recover(now, policy, jitter));
              && e'.job.status == FAILED && e'.job.failedAt == Some(now) && e'.job.attempts == e.job.attempts
              && e'.job.completedAt == e.job.completedAt && e'.job.finishedAt == e.job.finishedAt
              && e'.job.nextAttempt == e.job.nextAttempt
              && LeaseDropped(e.job, e'.job) && SameIdentity(e.job, e'.job) && e'.outbox == e.outbox
    ensures RunOut(e.job, now) && e.job.attempts < e.job.maxAttempts && policy.Delay(e.job.attempts + 1, jitter).Ok? ==>
              WaitsForRetry(e, After(e, Recover(now, policy, jitter)),
                            now + policy.Delay(e.job.attempts + 1, jitter).value)
  {
  }

  // ---------------------------------------------------------------- how long a lease lasts

  /** Between its claim and the end of these events the lease is neither renewed nor given back. */
  predicate Undisturbed(e: Entry, evs: seq<Event>)
    decreases |evs|
  {
    e.job.Leased()
    && (evs != [] ==>
          && !(evs[0].Heartbeat? && Decide(e, evs[0]).Applied?)
          && After(e, evs[0]).job.generation == e.job.generation
          && Undisturbed(After(e, evs[0]), evs[1..]))
  }

  lemma LeaseUntouched(e: Entry, ev: Event)
    requires e.job.Leased() && After(e, ev).job.Leased() && After(e, ev).job.generation == e.job.generation
    requires !(ev.Heartbeat? && Decide(e, ev).Applied?)
    ensures After(e, ev).job.leaseExpires == e.job.leaseExpires && After(e, ev).job.worker == e.job.worker
  {
  }

  lemma {:induction false} LeaseKept(e: Entry, evs: seq<Event>)
    requires Undisturbed(e, evs)
    ensures var job := Run(e, evs).job;
            && job.Leased() && job.generation == e.job.generation
            && job.worker == e.job.worker && job.leaseExpires == e.job.leaseExpires
    decreases |evs|
  {
    if evs != [] {
      LeaseUntouched(e, evs[0]);
      LeaseKept(After(e, evs[0]), evs[1..]);
    }
  }

  /** A claimed job that is neither renewed nor given back stays its worker's until exactly the seconds are over. */
  lemma LeaseLasts(e: Entry, w: WorkerId, now: int, leaseSeconds: int, evs: seq<Event>, t: int)
    requires e.job.status == QUEUED && Undisturbed(After(e, Claim(w, now, leaseSeconds)), evs)
    ensures var job := Run(After(e, Claim(w, now, leaseSeconds)), evs).job;
            && job.Leased() && Holds(job, w, e.job.generation + 1) && job.leaseExpires == Some(now + leaseSeconds)
            && (RunOut(job, t) <==> t >= now + leaseSeconds)
  {
    ClaimExactly(e, w, now, leaseSeconds);
    LeaseKept(After(e, Claim(w, now, leaseSeconds)), evs);
  }
}
