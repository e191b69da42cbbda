/** What holds of one job over whole runs: fencing, single exits, retries and termination. */
module JobRuns {
  import opened Common
  import opened Retry
  import opened JobLifecycle

  /** Generation g can no longer act: a later one exists, or g has left CLAIMED and RUNNING. */
  predicate Over(job: Job, g: nat) {
    job.generation > g || (job.generation == g && !job.Leased())
  }

  /** The event is a worker's write carrying generation g. */
  predicate Carries(ev: Event, g: nat) {
    match ev
    case Start(_, h, _) => h == g
    case Heartbeat(_, h, _, _) => h == g
    case Complete(_, h, _) => h == g
    case ScheduleRetry(_, h, _) => h == g
    case Fail(_, h, _) => h == g
    case _ => false
  }

  lemma StepStatus(e: Entry, ev: Event)
    requires Lawful(e)
    ensures After(e, ev).job.status == e.job.status || After(e, ev).job.status in Allowed(e.job.status)
    ensures e.job.Terminal() ==> After(e, ev).job == e.job
  {
  }

  lemma StepGrows(e: Entry, ev: Event)
    ensures After(e, ev).job.generation >= e.job.generation
    ensures After(e, ev).job.owner == e.job.owner
    ensures e.outbox.Keys <= After(e, ev).outbox.Keys
  {
  }

  lemma OverStays(e: Entry, ev: Event, g: nat)
    requires Lawful(e) && Over(e.job, g)
    ensures Over(After(e, ev).job, g)
  {
  }

  lemma OverIsRefused(e: Entry, ev: Event, g: nat)
    requires Lawful(e) && Over(e.job, g) && Carries(ev, g)
    ensures Decide(e, ev).Refused?
  {
  }

  lemma StepFacts(e: Entry, ev: Event)
    requires Lawful(e)
    ensures After(e, ev).job.status == e.job.status || After(e, ev).job.status in Allowed(e.job.status)
    ensures After(e, ev).job.generation >= e.job.generation
    ensures After(e, ev).job.owner == e.job.owner
    ensures e.job.Terminal() ==> After(e, ev).job == e.job
    ensures e.outbox.Keys <= After(e, ev).outbox.Keys
    ensures forall g :: Over(e.job, g) ==> Over(After(e, ev).job, g)
    ensures forall g :: Over(e.job, g) && Carries(ev, g) ==> Decide(e, ev).Refused?
  {
    StepStatus(e, ev);
    StepGrows(e, ev);
    forall g | Over(e.job, g)
      ensures Over(After(e, ev).job, g)
      ensures Carries(ev, g) ==> Decide(e, ev).Refused?
    {
      OverStays(e, ev, g);
      if Carries(ev, g) {
        OverIsRefused(e, ev, g);
      }
    }
  }

  /**
   Fencing over whole runs. Once generation g is over it stays over, so after any further
   events every write carrying g, from any worker, is refused and changes nothing.
   */
  lemma {:induction false} Fencing(e: Entry, evs: seq<Event>, g: nat, write: Event)
    requires Lawful(e) && Over(e.job, g) && Carries(write, g)
    ensures Over(Run(e, evs).job, g)
    ensures Decide(Run(e, evs), write) == Refused
    ensures After(Run(e, evs), write) == Run(e, evs)
    decreases |evs|
  {
    if evs == [] {
      StepFacts(e, write);
    } else {
      StepFacts(e, evs[0]);
      StepLawful(e, evs[0]);
      Fencing(After(e, evs[0]), evs[1..], g, write);
    }
  }

  /** Generations only grow, the owner never changes, and a terminal row never changes again. */
  lemma {:induction false} Absorbing(e: Entry, evs: seq<Event>)
    requires Lawful(e)
    ensures Run(e, evs).job.generation >= e.job.generation
    ensures Run(e, evs).job.owner == e.job.owner
    ensures e.job.Terminal() ==> Run(e, evs).job == e.job
    decreases |evs|
  {
    if evs != [] {
      StepFacts(e, evs[0]);
      StepLawful(e, evs[0]);
      Absorbing(After(e, evs[0]), evs[1..]);
    }
  }

  /** The event ends the lease of generation g. */
  predicate Exits(e: Entry, ev: Event, g: nat) {
    && e.job.Leased() && e.job.generation == g
    && !(After(e, ev).job.Leased() && After(e, ev).job.generation == g)
  }

  function ExitCount(e: Entry, evs: seq<Event>, g: nat): nat
    decreases |evs|
  {
    if evs == [] then 0 else
    (if Exits(e, evs[0], g) then 1 else 0) + ExitCount(After(e, evs[0]), evs[1..], g)
  }

  /** Each generation leaves CLAIMED and RUNNING at most once, and never once it is over. */
  lemma {:induction false} SingleExit(e: Entry, evs: seq<Event>, g: nat)
    requires Lawful(e)
    ensures ExitCount(e, evs, g) <= if Over(e.job, g) then 0 else 1
    decreases |evs|
  {
    if evs != [] {
      StepFacts(e, evs[0]);
      StepLawful(e, evs[0]);
      SingleExit(After(e, evs[0]), evs[1..], g);
    }
  }

  // ---------------------------------------------------------------- retries and the outbox

  /** The event moved the job to RETRY_SCHEDULED. */
  predicate Retries(e: Entry, ev: Event) {
    e.job.status != RETRY_SCHEDULED && After(e, ev).job.status == RETRY_SCHEDULED
  }

  function RetryCount(e: Entry, evs: seq<Event>): nat
    decreases |evs|
  {
    if evs == [] then 0 else
    (if Retries(e, evs[0]) then 1 else 0) + RetryCount(After(e, evs[0]), evs[1..])
  }

  /** The delivery generation of a retry is new for its job, so the conflict clause never swallows it. */
  lemma RetryInsertsItsRow(e: Entry, ev: Event)
    requires Lawful(e) && Retries(e, ev)
    ensures 2 * e.job.generation !in e.outbox
    ensures After(e, ev).outbox.Keys == e.outbox.Keys + {2 * e.job.generation}
    ensures forall k :: Unpublished(After(e, ev), k) <==> k == 2 * e.job.generation
  {
    StepLawful(e, ev);
    assert Unpublished(After(e, ev), 2 * e.job.generation);
  }

  lemma OtherEventsInsertOnlyTheFirstRow(e: Entry, ev: Event)
    requires Lawful(e) && !Retries(e, ev)
    ensures After(e, ev).outbox.Keys == e.outbox.Keys
            || (0 !in e.outbox && After(e, ev).outbox.Keys == e.outbox.Keys + {0})
  {
  }

  /** No retry is lost: over any run the outbox gains one row per retry, besides the first row. */
  lemma {:induction false} NoRetryLost(e: Entry, evs: seq<Event>)
    requires Lawful(e)
    ensures |Run(e, evs).outbox.Keys| == |e.outbox.Keys| + RetryCount(e, evs)
                                         + if 0 in Run(e, evs).outbox && 0 !in e.outbox then 1 else 0
    decreases |evs|
  {
    if evs != [] {
      var e' := After(e, evs[0]);
      StepLawful(e, evs[0]);
      if Retries(e, evs[0]) {
        RetryInsertsItsRow(e, evs[0]);
      } else {
        OtherEventsInsertOnlyTheFirstRow(e, evs[0]);
      }
      NoRetryLost(e', evs[1..]);
      RowsPersist(e', evs[1..]);
    }
  }

  lemma {:induction false} RowsPersist(e: Entry, evs: seq<Event>)
    requires Lawful(e)
    ensures e.outbox.Keys <= Run(e, evs).outbox.Keys
    decreases |evs|
  {
    if evs != [] {
      StepFacts(e, evs[0]);
      StepLawful(e, evs[0]);
      RowsPersist(After(e, evs[0]), evs[1..]);
    }
  }

  /** Every reachable RETRY_SCHEDULED job has exactly one unpublished row, and no job ever has two. */
  lemma PendingRows(owner: UserId, maxAttempts: nat, evs: seq<Event>)
    ensures var e := Run(Fresh(owner, maxAttempts), evs);
            && (forall k, m :: Unpublished(e, k) && Unpublished(e, m) ==> k == m)
            && (e.job.status == RETRY_SCHEDULED ==> exists k :: Unpublished(e, k))
  {
    FreshLawful(owner, maxAttempts);
    RunLawful(Fresh(owner, maxAttempts), evs);
  }

  // ---------------------------------------------------------------- exceptions

  /**
   In a lawful state `validate_transition` rejects exactly the cancellation of a leased
   job; the other exceptions are a target `terminalize_job` does not support and an
   expired, retryable lease whose backoff has a negative jitter.
   */
  lemma RaisesExactly(e: Entry, ev: Event)
    requires Lawful(e)
    requires ev.Recover? ==> ev.policy.Valid()
    ensures Decide(e, ev).Raised? <==>
            || (ev.Terminalize? && ev.target == CANCELLED && e.job.Leased())
            || (ev.Terminalize? && ev.target != FAILED && ev.target != CANCELLED)
            || (ev.Recover? && e.job.Leased() && e.job.leaseExpires.value <= ev.now
                && e.job.attempts < e.job.maxAttempts && ev.jitter < 0)
  {
    if ev.Recover? {
      DelayBounds(ev.policy, e.job.attempts + 1, ev.jitter);
    }
    if ev.PublishFailure? && ev.delivery in e.outbox {
      PublisherBackoff(e.outbox[ev.delivery].attempts + 1);
    }
  }

  /** A failing outbox row that is still pending is next due 30 to 900 seconds later. */
  lemma FailedPublishBacksOff(e: Entry, delivery: nat, now: int)
    requires Decide(e, PublishFailure(delivery, now)).Applied?
    ensures var row := After(e, PublishFailure(delivery, now)).outbox[delivery];
            && !row.published && row.attempts == e.outbox[delivery].attempts + 1
            && row.nextAttempt.Some? && now + 30 <= row.nextAttempt.value <= now + 900
    ensures After(e, PublishFailure(delivery, now)).job == e.job
  {
    PublisherBackoff(e.outbox[delivery].attempts + 1);
  }

  /** `finished_at` is set by every terminal step except the failure inside `recover_expired_lease`. */
  lemma FinishTimestamp(e: Entry, ev: Event)
    requires Lawful(e) && !e.job.Terminal() && After(e, ev).job.Terminal()
    ensures After(e, ev).job.finishedAt.Some? <==> !ev.Recover?
  {
  }

  /** The input that fails: a job with one attempt whose only lease runs out ends without a finish time. */
  lemma RecoveryForgetsFinishTime(owner: UserId)
    ensures var evs := [EnsureOutbox, Publish(0, 0), Claim(0, 0, 1), Recover(5, RetryPolicy(1, 1, 0), 0)];
            var e := Run(Fresh(owner, 1), evs);
            e.job.status == FAILED && e.job.finishedAt.None?
  {
    var evs := [EnsureOutbox, Publish(0, 0), Claim(0, 0, 1), Recover(5, RetryPolicy(1, 1, 0), 0)];
    var e1 := After(Fresh(owner, 1), evs[0]);
    var e2 := After(e1, evs[1]);
    var e3 := After(e2, evs[2]);
    assert evs[1..][1..][1..][1..] == [];
    assert Run(Fresh(owner, 1), evs) == Run(e1, evs[1..]) == Run(e2, evs[1..][1..]);
    assert Run(e2, evs[1..][1..]) == Run(e3, evs[1..][1..][1..]);
    assert Run(e3, evs[1..][1..][1..]) == Run(After(e3, evs[3]), evs[1..][1..][1..][1..]);
  }

  // ---------------------------------------------------------------- termination

  /** A worker gives back a lease although the attempts are used up; `schedule_retry` does not check. */
  predicate Overdrawn(e: Entry, ev: Event) {
    ev.ScheduleRetry? && Decide(e, ev).Applied? && e.job.attempts >= e.job.maxAttempts
  }

  function OverdrawnCount(e: Entry, evs: seq<Event>): nat
    decreases |evs|
  {
    if evs == [] then 0 else
    (if Overdrawn(e, evs[0]) then 1 else 0) + OverdrawnCount(After(e, evs[0]), evs[1..])
  }

  function StatusChanges(e: Entry, evs: seq<Event>): nat
    decreases |evs|
  {
    if evs == [] then 0 else
    (if After(e, evs[0]).job.status != e.job.status then 1 else 0) + StatusChanges(After(e, evs[0]), evs[1..])
  }

  /** What the attempt limit is for: at most max_attempts / 2 + 1 leases, each of them counted twice. */
  predicate WithinBound(job: Job) {
    job.generation <= job.maxAttempts / 2 + 1 && job.attempts <= job.maxAttempts + 1
  }

  /** A claim or a worker's retry is accepted although the count is above the limit; neither mutator looks at it. */
  predicate Overspends(e: Entry, ev: Event) {
    (ev.Claim? || ev.ScheduleRetry?) && Decide(e, ev).Applied? && e.job.attempts > e.job.maxAttempts
  }

  /** Some event of the run overspends. */
  predicate Overspent(e: Entry, evs: seq<Event>)
    decreases |evs|
  {
    evs != [] && (Overspends(e, evs[0]) || Overspent(After(e, evs[0]), evs[1..]))
  }

  lemma StepWithinBound(e: Entry, ev: Event)
    requires Lawful(e) && WithinBound(e.job)
    ensures WithinBound(After(e, ev).job) <==> !Overspends(e, ev)
  {
  }

  lemma StepOutsideBound(e: Entry, ev: Event)
    requires Lawful(e) && !WithinBound(e.job)
    ensures !WithinBound(After(e, ev).job)
  {
  }

  lemma {:induction false} OutsideStays(e: Entry, evs: seq<Event>)
    requires Lawful(e) && !WithinBound(e.job)
    ensures !WithinBound(Run(e, evs).job)
    decreases |evs|
  {
    if evs != [] {
      StepOutsideBound(e, evs[0]);
      StepLawful(e, evs[0]);
      OutsideStays(After(e, evs[0]), evs[1..]);
    }
  }

  /** The bound holds at the end of a run exactly when no event of the run overspends. */
  lemma {:induction false} BoundHoldsExactly(e: Entry, evs: seq<Event>)
    requires Lawful(e) && WithinBound(e.job)
    ensures WithinBound(Run(e, evs).job) <==> !Overspent(e, evs)
    decreases |evs|
  {
    if evs != [] {
      StepWithinBound(e, evs[0]);
      StepLawful(e, evs[0]);
      if Overspends(e, evs[0]) {
        OutsideStays(After(e, evs[0]), evs[1..]);
      } else {
        BoundHoldsExactly(After(e, evs[0]), evs[1..]);
      }
    }
  }

  predicate FewLeases(job: Job) {
    job.generation <= job.maxAttempts / 2 + 1
  }

  /** Some claim of the run overspends. */
  predicate OverClaimed(e: Entry, evs: seq<Event>)
    decreases |evs|
  {
    evs != [] && ((evs[0].Claim? && Overspends(e, evs[0])) || OverClaimed(After(e, evs[0]), evs[1..]))
  }

  lemma StepLeases(e: Entry, ev: Event)
    requires Lawful(e)
    ensures FewLeases(e.job) ==> (FewLeases(After(e, ev).job) <==> !(ev.Claim? && Overspends(e, ev)))
    ensures !FewLeases(e.job) ==> !FewLeases(After(e, ev).job)
  {
  }

  lemma {:induction false} ManyLeasesStay(e: Entry, evs: seq<Event>)
    requires Lawful(e) && !FewLeases(e.job)
    ensures !FewLeases(Run(e, evs).job)
    decreases |evs|
  {
    if evs != [] {
      StepLeases(e, evs[0]);
      StepLawful(e, evs[0]);
      ManyLeasesStay(After(e, evs[0]), evs[1..]);
    }
  }

  /** The number of leases alone stays within max_attempts / 2 + 1 exactly when no claim of the run overspends. */
  lemma {:induction false} LeasesBoundedExactly(e: Entry, evs: seq<Event>)
    requires Lawful(e) && FewLeases(e.job)
    ensures FewLeases(Run(e, evs).job) <==> !OverClaimed(e, evs)
    decreases |evs|
  {
    if evs != [] {
      StepLeases(e, evs[0]);
      StepLawful(e, evs[0]);
      if evs[0].Claim? && Overspends(e, evs[0]) {
        ManyLeasesStay(After(e, evs[0]), evs[1..]);
      } else {
        LeasesBoundedExactly(After(e, evs[0]), evs[1..]);
      }
    }
  }

  /**
   A sharper limit: max_attempts / 2 + 1 leases, but only max_attempts / 2 once all were
   given back; `extra` allows that many more.
   */
  predicate WithinLimit(job: Job, extra: nat) {
    && job.generation <= job.maxAttempts / 2 + 1 + extra
    && (job.attempts == 2 * job.generation ==> job.generation <= job.maxAttempts / 2 + extra)
  }

  lemma StepWithinLimit(e: Entry, ev: Event, extra: nat)
    requires Lawful(e) && WithinLimit(e.job, extra)
    ensures After(e, ev).job.maxAttempts == e.job.maxAttempts
    ensures WithinLimit(After(e, ev).job, if Overdrawn(e, ev) then extra + 1 else extra)
  {
  }

  /** An overdrawn retry breaks the sharper limit, and nothing repairs it. */
  lemma StepBreaksLimit(e: Entry, ev: Event)
    requires Lawful(e) && (Overdrawn(e, ev) || !WithinLimit(e.job, 0))
    ensures !WithinLimit(After(e, ev).job, 0)
  {
  }

  /**
   Over any run the limit is exceeded by at most one lease for each overdrawn retry, and
   `attempt_count` stays within max_attempts + 1 plus two for each.
   */
  lemma {:induction false} GenerationBound(e: Entry, evs: seq<Event>, extra: nat)
    requires Lawful(e) && WithinLimit(e.job, extra)
    ensures WithinLimit(Run(e, evs).job, extra + OverdrawnCount(e, evs))
    ensures Run(e, evs).job.maxAttempts == e.job.maxAttempts
    ensures Run(e, evs).job.attempts <= e.job.maxAttempts + 1 + 2 * (extra + OverdrawnCount(e, evs))
    decreases |evs|
  {
    if evs != [] {
      StepWithinLimit(e, evs[0], extra);
      StepLawful(e, evs[0]);
      GenerationBound(After(e, evs[0]), evs[1..], if Overdrawn(e, evs[0]) then extra + 1 else extra);
    } else {
      AttemptsFollow(e, extra);
    }
  }

  lemma AttemptsFollow(e: Entry, extra: nat)
    requires Lawful(e) && WithinLimit(e.job, extra)
    ensures e.job.attempts <= e.job.maxAttempts + 1 + 2 * extra
  {
  }

  lemma {:induction false} BrokenStays(e: Entry, evs: seq<Event>)
    requires Lawful(e) && !WithinLimit(e.job, 0)
    ensures !WithinLimit(Run(e, evs).job, 0)
    decreases |evs|
  {
    if evs != [] {
      StepBreaksLimit(e, evs[0]);
      StepLawful(e, evs[0]);
      BrokenStays(After(e, evs[0]), evs[1..]);
    }
  }

  /** The sharper limit holds at the end of a run exactly when no retry of the run was overdrawn. */
  lemma {:induction false} LimitHoldsExactly(e: Entry, evs: seq<Event>)
    requires Lawful(e) && WithinLimit(e.job, 0)
    ensures WithinLimit(Run(e, evs).job, 0) <==> OverdrawnCount(e, evs) == 0
    decreases |evs|
  {
    if evs != [] {
      StepLawful(e, evs[0]);
      if Overdrawn(e, evs[0]) {
        StepBreaksLimit(e, evs[0]);
        BrokenStays(After(e, evs[0]), evs[1..]);
      } else {
        StepWithinLimit(e, evs[0], 0);
        LimitHoldsExactly(After(e, evs[0]), evs[1..]);
      }
    }
  }

  function Rank(status: Status): nat {
    match status
    case CLAIMED => 5
    case RUNNING => 4
    case PENDING => 3
    case RETRY_SCHEDULED => 3
    case QUEUED => 2
    case _ => 0
  }

  /** Lexicographic in (generations left, rank of the status), folded into one number. */
  function Measure(job: Job): int {
    4 * (job.maxAttempts / 2 + 1 - job.generation) + Rank(job.status)
  }

  lemma StatusChangeLowersMeasure(e: Entry, ev: Event)
    requires Lawful(e)
    ensures After(e, ev).job.maxAttempts == e.job.maxAttempts
    ensures After(e, ev).job.status != e.job.status ==> Measure(After(e, ev).job) < Measure(e.job)
    ensures After(e, ev).job.status == e.job.status ==> Measure(After(e, ev).job) == Measure(e.job)
  {
  }

  lemma {:induction false} ChangesAreMeasured(e: Entry, evs: seq<Event>)
    requires Lawful(e)
    ensures StatusChanges(e, evs) + Measure(Run(e, evs).job) <= Measure(e.job)
    decreases |evs|
  {
    if evs != [] {
      StatusChangeLowersMeasure(e, evs[0]);
      StepLawful(e, evs[0]);
      ChangesAreMeasured(After(e, evs[0]), evs[1..]);
    }
  }

  /** Any run of a new job changes its status a bounded number of times. */
  lemma StatusChangesBounded(owner: UserId, maxAttempts: nat, evs: seq<Event>)
    ensures var e := Fresh(owner, maxAttempts);
            StatusChanges(e, evs) <= 4 * (maxAttempts / 2 + 1 + OverdrawnCount(e, evs)) + 3
  {
    var e := Fresh(owner, maxAttempts);
    FreshLawful(owner, maxAttempts);
    ChangesAreMeasured(e, evs);
    GenerationBound(e, evs, 0);
  }

  /** One accepted `schedule_retry` cycle: claim the queued job, give it back, publish the new row. */
  function RetryCycle(g: nat): seq<Event> {
    [Claim(0, 0, 1), ScheduleRetry(0, g + 1, 0), Publish(2 * (g + 1), 0)]
  }

  lemma RetryCycleWorks(e: Entry)
    requires Lawful(e) && e.job.status == QUEUED
    ensures Lawful(Run(e, RetryCycle(e.job.generation)))
    ensures Run(e, RetryCycle(e.job.generation)).job.status == QUEUED
    ensures Run(e, RetryCycle(e.job.generation)).job.generation == e.job.generation + 1
    ensures Run(e, RetryCycle(e.job.generation)).job.maxAttempts == e.job.maxAttempts
  {
    var evs := RetryCycle(e.job.generation);
    RunLawful(e, evs);
    var e1 := After(e, evs[0]);
    StepLawful(e, evs[0]);
    var e2 := After(e1, evs[1]);
    StepLawful(e1, evs[1]);
    assert e2.job.status == RETRY_SCHEDULED && e2.outbox[2 * e2.job.generation] == OutboxRow(false, 0, Some(0), None);
    var e3 := After(e2, evs[2]);
    assert evs[1..][1..][1..] == [];
    assert Run(e, evs) == Run(e1, evs[1..]) == Run(e2, evs[1..][1..]) == Run(e3, evs[1..][1..][1..]);
  }

  /** These events leave the new job queued, at generation n. */
  ghost predicate QueuedAgain(owner: UserId, maxAttempts: nat, evs: seq<Event>, n: nat) {
    var e := Run(Fresh(owner, maxAttempts), evs);
    Lawful(e) && e.job.status == QUEUED && e.job.generation == n
  }

  lemma FirstDelivery(owner: UserId, maxAttempts: nat)
    ensures QueuedAgain(owner, maxAttempts, [EnsureOutbox, Publish(0, 0)], 0)
  {
    var created := Fresh(owner, maxAttempts);
    var evs := [EnsureOutbox, Publish(0, 0)];
    FreshLawful(owner, maxAttempts);
    RunLawful(created, evs);
    var e1 := After(created, evs[0]);
    assert evs[1..][1..] == [];
    assert Run(created, evs) == Run(e1, evs[1..]) == Run(After(e1, evs[1]), evs[1..][1..]);
  }

  lemma OneMoreCycle(owner: UserId, maxAttempts: nat, evs: seq<Event>, n: nat)
    requires QueuedAgain(owner, maxAttempts, evs, n)
    ensures QueuedAgain(owner, maxAttempts, evs + RetryCycle(n), n + 1)
  {
    RetryCycleWorks(Run(Fresh(owner, maxAttempts), evs));
    RunConcat(Fresh(owner, maxAttempts), evs, RetryCycle(n));
  }

  /**
   `max_attempts` does not bound a job that its workers reschedule: whatever the limit,
   some run takes it to generation n.
   */
  lemma {:induction false} WorkerRetriesAreUnbounded(owner: UserId, maxAttempts: nat, n: nat)
    ensures exists evs: seq<Event> :: QueuedAgain(owner, maxAttempts, evs, n)
    decreases n
  {
    if n == 0 {
      FirstDelivery(owner, maxAttempts);
    } else {
      WorkerRetriesAreUnbounded(owner, maxAttempts, n - 1);
      var evs: seq<Event> :| QueuedAgain(owner, maxAttempts, evs, n - 1);
      OneMoreCycle(owner, maxAttempts, evs, n - 1);
      assert QueuedAgain(owner, maxAttempts, evs + RetryCycle(n - 1), n);
    }
  }

  lemma {:induction false} RunConcat(e: Entry, evs: seq<Event>, more: seq<Event>)
    ensures Run(e, evs + more) == Run(Run(e, evs), more)
    decreases |evs|
  {
    if evs == [] {
      assert evs + more == more;
    } else {
      assert (evs + more)[1..] == evs[1..] + more;
      RunConcat(After(e, evs[0]), evs[1..], more);
    }
  }
}
