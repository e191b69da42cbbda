/**
 One analysis job together with its outbox rows, as the mutators of
 `repositories/analysis_jobs.py` change them. Every mutator runs under the job's row
 lock, so each is one atomic step; a step that raises is rolled back.
 */
module JobLifecycle {
  import opened Common
  import opened Retry

  datatype Status =
    | PENDING | QUEUED | CLAIMED | RUNNING | RETRY_SCHEDULED
    | SUCCEEDED | FAILED | CANCELLED

  const TERMINAL: set<Status> := {SUCCEEDED, FAILED, CANCELLED}

  /** `ALLOWED_TRANSITIONS`. */
  function Allowed(current: Status): set<Status> {
    match current
    case PENDING => {QUEUED, FAILED, CANCELLED}
    case QUEUED => {CLAIMED, FAILED, CANCELLED}
    case CLAIMED => {RUNNING, FAILED, RETRY_SCHEDULED}
    case RUNNING => {SUCCEEDED, FAILED, RETRY_SCHEDULED}
    case RETRY_SCHEDULED => {QUEUED, FAILED, CANCELLED}
    case _ => {}
  }

  datatype Job = Job(
    owner: UserId,
    status: Status,
    attempts: nat,
    maxAttempts: nat,
    generation: nat,
    worker: Option<WorkerId>,
    leaseExpires: Option<int>,
    heartbeat: Option<int>,
    nextAttempt: Option<int>,
    completedAt: Option<int>,
    failedAt: Option<int>,
    finishedAt: Option<int>
  ) {
    /** Some worker holds the lease. */
    predicate Leased() {
      status == CLAIMED || status == RUNNING
    }

    predicate Terminal() {
      status in TERMINAL
    }

    predicate OwnsLease(w: WorkerId, g: nat) {
      worker == Some(w) && generation == g
    }

    function DropLease(): Job {
      this.(worker := None, leaseExpires := None, heartbeat := None)
    }
  }

  datatype OutboxRow = OutboxRow(
    published: bool,
    attempts: nat,
    nextAttempt: Option<int>,
    publishedAt: Option<int>
  ) {
    predicate Due(now: int) {
      !published && (nextAttempt.None? || nextAttempt.value <= now)
    }
  }

  /** A job and its outbox rows by delivery generation. */
  datatype Entry = Entry(job: Job, outbox: map<nat, OutboxRow>)

  datatype Event =
    | EnsureOutbox
    | Publish(delivery: nat, now: int)
    | PublishFailure(delivery: nat, now: int)
    | Claim(worker: WorkerId, now: int, leaseSeconds: int)
    | Start(worker: WorkerId, generation: nat, now: int)
    | Heartbeat(worker: WorkerId, generation: nat, now: int, leaseSeconds: int)
    | Complete(worker: WorkerId, generation: nat, now: int)
    | ScheduleRetry(worker: WorkerId, generation: nat, when: int)
    | Fail(worker: WorkerId, generation: nat, now: int)
    | Terminalize(target: Status, now: int)
    | Recover(now: int, policy: RetryPolicy, jitter: int)

  /** `Refused` is the mutator's False or None; `Raised` is an exception, rolled back. */
  datatype Verdict = Applied(entry: Entry) | Refused | Raised

  /** The row `create_if_absent` inserts, for any positive attempt limit. */
  function Fresh(owner: UserId, maxAttempts: nat): Entry {
    Entry(Job(owner, PENDING, 0, maxAttempts, 0, None, None, None, None, None, None, None), map[])
  }

  /** `validate_transition` guarding an assignment of the new row. */
  function Transit(e: Entry, target: Status, job: Job): Verdict {
    if target in Allowed(e.job.status) then Applied(e.(job := job.(status := target))) else Raised
  }

  /** INSERT ... ON CONFLICT DO NOTHING. */
  function InsertRow(outbox: map<nat, OutboxRow>, delivery: nat, due: Option<int>): map<nat, OutboxRow> {
    if delivery in outbox then outbox else outbox[delivery := OutboxRow(false, 0, due, None)]
  }

  function PublishRow(e: Entry, delivery: nat, now: int): Verdict {
    if delivery !in e.outbox || !e.outbox[delivery].Due(now) then
      Refused
    else
      var row := e.outbox[delivery].(published := true, publishedAt := Some(now));
      var marked := e.(outbox := e.outbox[delivery := row]);
      if e.job.status == PENDING || e.job.status == RETRY_SCHEDULED then
        Transit(marked, QUEUED, e.job)
      else
        Applied(marked)
  }

  function RecordFailure(e: Entry, delivery: nat, now: int): Verdict {
    if delivery !in e.outbox || !e.outbox[delivery].Due(now) then
      Refused
    else
      var row := e.outbox[delivery];
      var delay := PUBLISHER_POLICY.Delay(row.attempts + 1, 0);
      if delay.Err? then Raised else
      var failed := row.(attempts := row.attempts + 1, nextAttempt := Some(now + delay.value));
      Applied(e.(outbox := e.outbox[delivery := failed]))
  }

  function ClaimJob(e: Entry, w: WorkerId, now: int, leaseSeconds: int): Verdict {
    if e.job.status != QUEUED then Refused else
    Transit(e, CLAIMED, e.job.(
      heartbeat := Some(now),
      leaseExpires := Some(now + leaseSeconds),
      worker := Some(w),
      generation := e.job.generation + 1,
      attempts := e.job.attempts + 1))
  }

  function StartJob(e: Entry, w: WorkerId, g: nat): Verdict {
    if e.job.status != CLAIMED || !e.job.OwnsLease(w, g) then Refused else
    Transit(e, RUNNING, e.job)
  }

  function HeartbeatJob(e: Entry, w: WorkerId, g: nat, now: int, leaseSeconds: int): Verdict {
    if !e.job.Leased() || !e.job.OwnsLease(w, g) || e.job.leaseExpires.None? || e.job.leaseExpires.value <= now then
      Refused
    else
      Applied(e.(job := e.job.(heartbeat := Some(now), leaseExpires := Some(now + leaseSeconds))))
  }

  function CompleteJob(e: Entry, w: WorkerId, g: nat, now: int): Verdict {
    if e.job.status != RUNNING || !e.job.OwnsLease(w, g) then Refused else
    Transit(e, SUCCEEDED, e.job.DropLease().(completedAt := Some(now), finishedAt := Some(now)))
  }

  /** The tail `schedule_retry` and `recover_expired_lease` share: count the attempt, insert the outbox row. */
  function Reschedule(e: Entry, when: int): Verdict {
    var job := e.job.DropLease().(attempts := e.job.attempts + 1, nextAttempt := Some(when));
    Transit(e.(outbox := InsertRow(e.outbox, job.attempts, Some(when))), RETRY_SCHEDULED, job)
  }

  function RetryJob(e: Entry, w: WorkerId, g: nat, when: int): Verdict {
    if !e.job.Leased() || !e.job.OwnsLease(w, g) then Refused else Reschedule(e, when)
  }

  function FailJob(e: Entry, w: WorkerId, g: nat, now: int): Verdict {
    if e.job.Terminal() || !e.job.OwnsLease(w, g) then Refused else
    Transit(e, FAILED, e.job.DropLease().(failedAt := Some(now), finishedAt := Some(now)))
  }

  function TerminalizeJob(e: Entry, target: Status, now: int): Verdict {
    if target != FAILED && target != CANCELLED then Raised else
    if e.job.Terminal() then Refused else
    Transit(e, target, e.job.DropLease().(
      finishedAt := Some(now),
      failedAt := if target == FAILED then Some(now) else e.job.failedAt))
  }

  function RecoverLease(e: Entry, now: int, policy: RetryPolicy, jitter: int): Verdict {
    if !e.job.Leased() || e.job.leaseExpires.None? || e.job.leaseExpires.value > now then
      Refused
    else if e.job.attempts >= e.job.maxAttempts then
      Transit(e, FAILED, e.job.DropLease().(failedAt := Some(now)))
    else
      var delay := policy.Delay(e.job.attempts + 1, jitter);
      if delay.Err? then Raised else Reschedule(e, now + delay.value)
  }

  function Decide(e: Entry, ev: Event): Verdict {
    match ev
    case EnsureOutbox => Applied(e.(outbox := InsertRow(e.outbox, 0, None)))
    case Publish(delivery, now) => PublishRow(e, delivery, now)
    case PublishFailure(delivery, now) => RecordFailure(e, delivery, now)
    case Claim(w, now, leaseSeconds) => ClaimJob(e, w, now, leaseSeconds)
    case Start(w, g, _) => StartJob(e, w, g)
    case Heartbeat(w, g, now, leaseSeconds) => HeartbeatJob(e, w, g, now, leaseSeconds)
    case Complete(w, g, now) => CompleteJob(e, w, g, now)
    case ScheduleRetry(w, g, when) => RetryJob(e, w, g, when)
    case Fail(w, g, now) => FailJob(e, w, g, now)
    case Terminalize(target, now) => TerminalizeJob(e, target, now)
    case Recover(now, policy, jitter) => RecoverLease(e, now, policy, jitter)
  }

  /** The committed entry: refused and raising mutators leave it as it was. */
  function After(e: Entry, ev: Event): Entry {
    var verdict := Decide(e, ev);
    if verdict.Applied? then verdict.entry else e
  }

  function Run(e: Entry, evs: seq<Event>): Entry
    decreases |evs|
  {
    if evs == [] then e else Run(After(e, evs[0]), evs[1..])
  }

  // ---------------------------------------------------------------- the law of one entry

  /** `attempt_count` against `lease_generation`, and the lease fields against the status. */
  predicate CounterLaw(job: Job) {
    && (job.status == PENDING ==> job.generation == 0)
    && (job.status in {CLAIMED, RUNNING, SUCCEEDED, RETRY_SCHEDULED} ==> job.generation >= 1)
    && (job.status in {PENDING, QUEUED, RETRY_SCHEDULED, CANCELLED} ==> job.attempts == 2 * job.generation)
    && (job.status in {CLAIMED, RUNNING, SUCCEEDED} ==> job.attempts == 2 * job.generation - 1)
    && (job.status == FAILED ==> job.attempts == 2 * job.generation || job.attempts == 2 * job.generation - 1)
    && (job.Leased() <==> job.worker.Some?)
    && (job.Leased() <==> job.leaseExpires.Some?)
    && (job.Leased() <==> job.heartbeat.Some?)
  }

  predicate TimesLaw(job: Job) {
    && (job.completedAt.Some? <==> job.status == SUCCEEDED)
    && (job.failedAt.Some? <==> job.status == FAILED)
    && (job.finishedAt.Some? ==> job.Terminal())
    && (job.status in {SUCCEEDED, CANCELLED} ==> job.finishedAt.Some?)
  }

  predicate Unpublished(e: Entry, k: nat) {
    k in e.outbox && !e.outbox[k].published
  }

  /** Where outbox rows may be, and which of them may still be unpublished. */
  ghost predicate OutboxLaw(e: Entry) {
    && (forall k :: k in e.outbox ==> k % 2 == 0 && k <= 2 * e.job.generation)
    && (e.job.status in {CLAIMED, RUNNING, SUCCEEDED} ==> 2 * e.job.generation !in e.outbox)
    && (e.outbox != map[] ==> 0 in e.outbox)
    && (e.job.status in {QUEUED, CLAIMED, RUNNING, RETRY_SCHEDULED} ==> 0 in e.outbox)
    && (forall k, m :: Unpublished(e, k) && Unpublished(e, m) ==> k == m)
    && (e.job.status in {QUEUED, CLAIMED, RUNNING} ==> forall k :: !Unpublished(e, k))
    && (e.job.status == PENDING && 0 in e.outbox ==> Unpublished(e, 0))
    && (e.job.status == RETRY_SCHEDULED ==> Unpublished(e, 2 * e.job.generation))
  }

  ghost predicate Lawful(e: Entry) {
    CounterLaw(e.job) && TimesLaw(e.job) && OutboxLaw(e)
  }

  lemma FreshLawful(owner: UserId, maxAttempts: nat)
    ensures Lawful(Fresh(owner, maxAttempts))
  {
  }

  lemma StepCounters(e: Entry, ev: Event)
    requires CounterLaw(e.job) && TimesLaw(e.job)
    ensures CounterLaw(After(e, ev).job) && TimesLaw(After(e, ev).job)
  {
  }

  /** These events leave the outbox alone. */
  predicate Quiet(ev: Event) {
    ev.Claim? || ev.Start? || ev.Heartbeat? || ev.Complete? || ev.Fail? || ev.Terminalize?
  }

  lemma QuietOutbox(e: Entry, ev: Event)
    requires Lawful(e) && Quiet(ev)
    ensures OutboxLaw(After(e, ev))
  {
    assert forall k :: Unpublished(After(e, ev), k) <==> Unpublished(e, k);
  }

  lemma PublishOutbox(e: Entry, delivery: nat, now: int)
    requires Lawful(e)
    ensures OutboxLaw(After(e, Publish(delivery, now)))
  {
    var e' := After(e, Publish(delivery, now));
    if PublishRow(e, delivery, now).Applied? {
      assert Unpublished(e, delivery);
      forall k | Unpublished(e', k)
        ensures Unpublished(e, k) && k != delivery
      {
      }
    }
  }

  lemma PublishFailureOutbox(e: Entry, delivery: nat, now: int)
    requires Lawful(e)
    ensures OutboxLaw(After(e, PublishFailure(delivery, now)))
  {
    assert forall k :: Unpublished(After(e, PublishFailure(delivery, now)), k) <==> Unpublished(e, k);
  }

  lemma EnsureOutboxLaw(e: Entry)
    requires Lawful(e)
    ensures OutboxLaw(After(e, EnsureOutbox))
  {
    forall k | Unpublished(After(e, EnsureOutbox), k)
      ensures Unpublished(e, k) || (k == 0 && e.outbox == map[])
    {
    }
  }

  /** A lease given back adds the one unpublished row, at a delivery generation no row has yet. */
  lemma RescheduleOutbox(e: Entry, when: int)
    requires Lawful(e) && e.job.Leased()
    ensures Reschedule(e, when).Applied? && OutboxLaw(Reschedule(e, when).entry)
  {
    var e' := Reschedule(e, when).entry;
    var next := 2 * e.job.generation;
    assert e.job.attempts + 1 == next && next !in e.outbox;
    assert e'.outbox == e.outbox[next := OutboxRow(false, 0, Some(when), None)];
    forall k | Unpublished(e', k)
      ensures k == next
    {
      assert k == next || Unpublished(e, k);
    }
    assert Unpublished(e', next);
  }

  /** What the recovery leaves: the entry as it was, a failed job, or a rescheduled one. */
  lemma RecoverLeaves(e: Entry, now: int, policy: RetryPolicy, jitter: int)
    ensures var e', delay := After(e, Recover(now, policy, jitter)), policy.Delay(e.job.attempts + 1, jitter);
            || e' == e
            || (e'.job.status == FAILED && e'.outbox == e.outbox && e'.job.generation == e.job.generation)
            || (e.job.Leased() && delay.Ok? && e' == Reschedule(e, now + delay.value).entry)
  {
  }

  lemma RecoverOutbox(e: Entry, now: int, policy: RetryPolicy, jitter: int)
    requires Lawful(e)
    ensures OutboxLaw(After(e, Recover(now, policy, jitter)))
  {
    var e', delay := After(e, Recover(now, policy, jitter)), policy.Delay(e.job.attempts + 1, jitter);
    RecoverLeaves(e, now, policy, jitter);
    if e' == e || (e'.job.status == FAILED && e'.outbox == e.outbox && e'.job.generation == e.job.generation) {
      SameOutbox(e, e');
    } else {
      RescheduleOutbox(e, now + delay.value);
    }
  }

  /** Only the obligations of the new status have to be checked when the rows stay. */
  lemma SameOutbox(e: Entry, e': Entry)
    requires OutboxLaw(e) && e'.outbox == e.outbox && e'.job.generation == e.job.generation
    requires e' == e || e'.job.status == FAILED
    ensures OutboxLaw(e')
  {
    assert forall k :: Unpublished(e', k) <==> Unpublished(e, k);
  }

  lemma StepLawful(e: Entry, ev: Event)
    requires Lawful(e)
    ensures Lawful(After(e, ev))
  {
    StepCounters(e, ev);
    match ev
    case Publish(delivery, now) => PublishOutbox(e, delivery, now);
    case PublishFailure(delivery, now) => PublishFailureOutbox(e, delivery, now);
    case EnsureOutbox => EnsureOutboxLaw(e);
    case ScheduleRetry(_, _, when) =>
      if e.job.Leased() {
        RescheduleOutbox(e, when);
      }
    case Recover(now, policy, jitter) => RecoverOutbox(e, now, policy, jitter);
    case _ => QuietOutbox(e, ev);
  }

  /** Every reachable state obeys the counter, timestamp and outbox laws. */
  lemma {:induction false} RunLawful(e: Entry, evs: seq<Event>)
    requires Lawful(e)
    ensures Lawful(Run(e, evs))
    decreases |evs|
  {
    if evs != [] {
      StepLawful(e, evs[0]);
      RunLawful(After(e, evs[0]), evs[1..]);
    }
  }
}
