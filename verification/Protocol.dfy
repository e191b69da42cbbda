/**
 The whole job protocol: handlers, workers, publisher and sweeps share Redis and Postgres,
 but no step touches both. Each Lua script and each committed transaction is one atomic
 step; steps interleave in any order, and whoever crashes simply takes no further step.
 */
module Protocol {
  import opened Common
  import opened JobLifecycle
  import opened JobTable
  import J = JobRuns
  import A = Admission

  /**
   `admitted` are the jobs some handler was told ACTIVE for, `promoted` the ids some
   `_release_capacity` call was handed: knowledge that may be acted on much later.
   */
  datatype System = System(slots: A.Slots, db: Ledger, admitted: set<JobId>, promoted: set<JobId>)

  datatype Step =
    // Redis
    | AdmitScript(job: JobId, consent: bool, now: int)
    | StateScript(job: JobId)
    | CancelScript(job: JobId)
    | ExtendScript(job: JobId, now: int)
    | SweepScript(now: int)
    | CompleteScript(job: JobId)
    // Postgres
    | CommitIngestion(job: JobId, enqueue: bool)
    | CommitAdmission(job: JobId)
    | CommitPromotion(job: JobId)
    | Mutate(job: JobId, ev: Event)

  const START := System(A.EMPTY, map[], {}, {})

  /** `create_if_absent` writes this limit. */
  const MAX_ATTEMPTS := 1

  /**
   What the callers have established before the step: capacity is released only after a
   terminal commit, a first outbox row is written only on an ACTIVE reply or a promotion,
   and the worker-side mutators never write that row.
   */
  predicate Enabled(s: System, step: Step) {
    match step
    case CompleteScript(job) => job in s.db && s.db[job].job.Terminal()
    case CommitIngestion(job, enqueue) => job !in s.db && (enqueue ==> job in s.admitted)
    case CommitAdmission(job) => job in s.db && job in s.admitted
    case CommitPromotion(job) => job in s.db && job in s.promoted && s.db[job].job.status == PENDING
    case Mutate(job, ev) => job in s.db && !ev.EnsureOutbox?
    case _ => true
  }

  /** The admission operation of a Redis step. */
  function OpOf(step: Step): Option<A.Op> {
    match step
    case AdmitScript(job, consent, now) => Some(A.AdmitOp(job, consent, now))
    case CancelScript(job) => Some(A.CancelOp(job))
    case ExtendScript(job, now) => Some(A.ExtendOp(job, now))
    case SweepScript(now) => Some(A.SweepOp(now))
    case CompleteScript(job) => Some(A.CompleteOp(job))
    case _ => None
  }

  /** The job event of a Postgres step on an existing row. */
  function EventOf(step: Step): Option<(JobId, Event)> {
    match step
    case CommitAdmission(job) => Some((job, EnsureOutbox))
    case CommitPromotion(job) => Some((job, EnsureOutbox))
    case Mutate(job, ev) => Some((job, ev))
    case _ => None
  }

  function Take(s: System, step: Step): System {
    if !Enabled(s, step) then s else
    match step
    case AdmitScript(job, consent, now) =>
      var (slots, reply) := A.Admit(s.slots, job, consent, now);
      s.(slots := slots, admitted := if reply == A.Active then s.admitted + {job} else s.admitted)
    case StateScript(job) =>
      s.(admitted := if A.State(s.slots, job) == Some(A.Active) then s.admitted + {job} else s.admitted)
    case CompleteScript(job) =>
      var (slots, next) := A.Complete(s.slots, job);
      s.(slots := slots, promoted := if next.Some? then s.promoted + {next.value.job} else s.promoted)
    case CancelScript(job) => s.(slots := A.Cancel(s.slots, job).0)
    case ExtendScript(job, now) => s.(slots := A.Extend(s.slots, job, now).0)
    case SweepScript(now) => s.(slots := A.Sweep(s.slots, now).0)
    case CommitIngestion(job, enqueue) =>
      var row := Fresh(job.owner, MAX_ATTEMPTS);
      s.(db := s.db[job := if enqueue then After(row, EnsureOutbox) else row])
    case CommitAdmission(job) => s.(db := Fire(s.db, job, EnsureOutbox))
    case CommitPromotion(job) => s.(db := Fire(s.db, job, EnsureOutbox))
    case Mutate(job, ev) => s.(db := Fire(s.db, job, ev))
  }

  function Exec(s: System, steps: seq<Step>): System
    decreases |steps|
  {
    if steps == [] then s else Exec(Take(s, steps[0]), steps[1..])
  }

  // ---------------------------------------------------------------- cross-store safety

  /** The job holds an active slot, or it is finished for good. */
  predicate Settled(s: System, job: JobId) {
    job in s.slots.active || (job in s.db && s.db[job].job.Terminal())
  }

  /** `owner_user_id` of a row is the user its id belongs to. */
  ghost predicate OwnersMatch(db: Ledger) {
    forall j :: j in db ==> db[j].job.owner == j.owner
  }

  ghost predicate RowsOwned(db: Ledger) {
    LawfulLedger(db) && OwnersMatch(db)
  }

  /** Every first outbox row, and every right to write one, belongs to a settled job. */
  ghost predicate Backed(s: System) {
    && (forall j :: j in s.db && s.db[j].outbox != map[] ==> Settled(s, j))
    && (forall j :: j in s.admitted || j in s.promoted ==> Settled(s, j))
  }

  ghost predicate Inv(s: System) {
    A.Inv(s.slots) && RowsOwned(s.db) && Backed(s)
  }

  lemma MutationKeepsOutboxEmpty(e: Entry, ev: Event)
    requires Lawful(e) && e.outbox == map[] && !ev.EnsureOutbox?
    ensures After(e, ev).outbox == map[]
  {
  }

  lemma RedisApplies(s: System, step: Step)
    requires Enabled(s, step) && OpOf(step).Some?
    ensures Take(s, step).slots == A.Apply(s.slots, OpOf(step).value) && Take(s, step).db == s.db
  {
  }

  /** Only the completion of a finished job frees a slot. */
  lemma RedisSettles(s: System, step: Step)
    requires A.Shape(s.slots) && Enabled(s, step) && OpOf(step).Some?
    ensures Take(s, step).slots == A.Apply(s.slots, OpOf(step).value) && Take(s, step).db == s.db
    ensures forall j :: Settled(s, j) ==> Settled(Take(s, step), j)
  {
    RedisApplies(s, step);
    A.StepMembers(s.slots, OpOf(step).value);
  }

  /** A Redis step grants the right to write a first row only to a job it leaves active. */
  lemma RedisGrants(s: System, step: Step)
    requires Enabled(s, step) && OpOf(step).Some?
    ensures Take(s, step).admitted + Take(s, step).promoted
            <= s.admitted + s.promoted + Take(s, step).slots.active
  {
    if step.AdmitScript? {
      A.AdmitCases(s.slots, step.job, step.consent, step.now);
    }
  }

  lemma BackedStays(s: System, s': System)
    requires Backed(s) && s'.db == s.db
    requires forall j :: Settled(s, j) ==> Settled(s', j)
    requires s'.admitted + s'.promoted <= s.admitted + s.promoted + s'.slots.active
    ensures Backed(s')
  {
  }

  lemma RedisInv(s: System, step: Step)
    requires Inv(s) && Enabled(s, step) && OpOf(step).Some?
    ensures Inv(Take(s, step))
  {
    RedisSettles(s, step);
    RedisGrants(s, step);
    BackedStays(s, Take(s, step));
    A.StepInv(s.slots, OpOf(step).value);
  }

  /** A Postgres step on one row leaves it owned and lawful, and a finished row finished. */
  lemma RowStep(db: Ledger, job: JobId, ev: Event)
    requires RowsOwned(db) && job in db
    ensures RowsOwned(Fire(db, job, ev)) && job in Fire(db, job, ev)
    ensures db[job].job.Terminal() ==> Fire(db, job, ev)[job].job.Terminal()
    ensures !ev.EnsureOutbox? && db[job].outbox == map[] ==> Fire(db, job, ev)[job].outbox == map[]
  {
    FireLawful(db, job, ev);
    J.StepFacts(db[job], ev);
    if db[job].outbox == map[] && !ev.EnsureOutbox? {
      MutationKeepsOutboxEmpty(db[job], ev);
    }
  }

  /** It keeps every first row backed, if the row it writes is. */
  lemma RowBacked(s: System, job: JobId, ev: Event)
    requires Backed(s) && RowsOwned(s.db) && job in s.db && (ev.EnsureOutbox? ==> Settled(s, job))
    ensures Backed(s.(db := Fire(s.db, job, ev)))
  {
    var s' := s.(db := Fire(s.db, job, ev));
    RowStep(s.db, job, ev);
    forall j | Settled(s, j)
      ensures Settled(s', j)
    {
    }
    forall j | j in s'.db && s'.db[j].outbox != map[]
      ensures Settled(s, j)
    {
    }
  }

  lemma PostgresInv(s: System, step: Step)
    requires Inv(s) && Enabled(s, step) && EventOf(step).Some?
    ensures Inv(Take(s, step))
  {
    var (job, ev) := EventOf(step).value;
    RowStep(s.db, job, ev);
    RowBacked(s, job, ev);
    assert Take(s, step) == s.(db := Fire(s.db, job, ev));
  }

  lemma IngestionInv(s: System, job: JobId, enqueue: bool)
    requires Inv(s) && Enabled(s, CommitIngestion(job, enqueue))
    ensures Inv(Take(s, CommitIngestion(job, enqueue)))
  {
    var s' := Take(s, CommitIngestion(job, enqueue));
    FreshLawful(job.owner, MAX_ATTEMPTS);
    StepLawful(Fresh(job.owner, MAX_ATTEMPTS), EnsureOutbox);
    assert forall j :: Settled(s, j) ==> Settled(s', j);
  }

  lemma StepInv(s: System, step: Step)
    requires Inv(s)
    ensures Inv(Take(s, step))
  {
    if Enabled(s, step) {
      if OpOf(step).Some? {
        RedisInv(s, step);
      } else if EventOf(step).Some? {
        PostgresInv(s, step);
      } else if step.CommitIngestion? {
        IngestionInv(s, step.job, step.enqueue);
      }
    }
  }

  lemma {:induction false} RunInv(s: System, steps: seq<Step>)
    requires Inv(s)
    ensures Inv(Exec(s, steps))
    decreases |steps|
  {
    if steps != [] {
      StepInv(s, steps[0]);
      RunInv(Take(s, steps[0]), steps[1..]);
    }
  }

  /** The jobs the analysis capacity is spent on. */
  function Engaged(db: Ledger): set<JobId> {
    set j | j in db && db[j].job.status in {QUEUED, CLAIMED, RUNNING, RETRY_SCHEDULED}
  }

  lemma InvSafety(s: System)
    requires Inv(s)
    ensures forall j :: j in s.db && s.db[j].outbox != map[] && !s.db[j].job.Terminal() ==> j in s.slots.active
    ensures Engaged(s.db) <= s.slots.active && |Engaged(s.db)| <= 2
    ensures forall j, k :: j in Engaged(s.db) && k in Engaged(s.db) && j != k ==>
              s.db[j].job.owner != s.db[k].job.owner
  {
    forall j | j in Engaged(s.db)
      ensures j in s.slots.active && j in A.Members(s.slots)
    {
      assert Lawful(s.db[j]) && 0 in s.db[j].outbox;
      assert Settled(s, j);
    }
    SubsetSize(Engaged(s.db), s.slots.active);
  }

  /**
   Safety across the two stores, for every interleaving: a non-terminal job with an outbox
   row holds an active slot, so at most two jobs are ever queued, claimed, running or
   awaiting a retry, and no two of them belong to one user.
   */
  lemma Safety(steps: seq<Step>)
    ensures var s := Exec(START, steps);
            && (forall j :: j in s.db && s.db[j].outbox != map[] && !s.db[j].job.Terminal() ==> j in s.slots.active)
            && Engaged(s.db) <= s.slots.active
            && |Engaged(s.db)| <= 2
            && (forall j, k :: j in Engaged(s.db) && k in Engaged(s.db) && j != k ==>
                  s.db[j].job.owner != s.db[k].job.owner)
  {
    RunInv(START, steps);
    InvSafety(Exec(START, steps));
  }

  // ---------------------------------------------------------------- projections

  /** The events a run fires on one row, from the moment it exists. */
  function EventsOn(s: System, steps: seq<Step>, job: JobId): seq<Event>
    decreases |steps|
  {
    if steps == [] then [] else
    (if Enabled(s, steps[0]) && EventOf(steps[0]).Some? && EventOf(steps[0]).value.0 == job
     then [EventOf(steps[0]).value.1] else [])
    + EventsOn(Take(s, steps[0]), steps[1..], job)
  }

  /** Seen from one row, a run of the system is a run of `JobLifecycle`, so every law of those runs applies. */
  lemma {:induction false} RowRuns(s: System, steps: seq<Step>, job: JobId)
    requires job in s.db
    ensures job in Exec(s, steps).db
    ensures Exec(s, steps).db[job] == Run(s.db[job], EventsOn(s, steps, job))
    decreases |steps|
  {
    if steps != [] {
      var s' := Take(s, steps[0]);
      RowRuns(s', steps[1..], job);
      var rest := EventsOn(s', steps[1..], job);
      if Enabled(s, steps[0]) && EventOf(steps[0]).Some? && EventOf(steps[0]).value.0 == job {
        assert ([EventOf(steps[0]).value.1] + rest)[1..] == rest;
      } else {
        assert [] + rest == rest;
      }
    }
  }

  /** The admission operations of a run. */
  function OpsOf(s: System, steps: seq<Step>): seq<A.Op>
    decreases |steps|
  {
    if steps == [] then [] else
    (if Enabled(s, steps[0]) && OpOf(steps[0]).Some? then [OpOf(steps[0]).value] else [])
    + OpsOf(Take(s, steps[0]), steps[1..])
  }

  /** Seen from Redis, a run of the system is a run of `Admission`. */
  lemma {:induction false} QueueRuns(s: System, steps: seq<Step>)
    ensures Exec(s, steps).slots == A.Run(s.slots, OpsOf(s, steps))
    decreases |steps|
  {
    if steps != [] {
      var s' := Take(s, steps[0]);
      QueueRuns(s', steps[1..]);
      var rest := OpsOf(s', steps[1..]);
      if Enabled(s, steps[0]) && OpOf(steps[0]).Some? {
        assert ([OpOf(steps[0]).value] + rest)[1..] == rest;
      } else {
        assert [] + rest == rest;
      }
    }
  }

  /** Fencing in the whole system: once generation g of a job is over, no later write carrying g changes the row. */
  lemma SystemFencing(s: System, steps: seq<Step>, job: JobId, g: nat, write: Event)
    requires Inv(s) && job in s.db && J.Over(s.db[job].job, g) && J.Carries(write, g)
    ensures Take(Exec(s, steps), Mutate(job, write)) == Exec(s, steps)
  {
    RowRuns(s, steps, job);
    J.Fencing(s.db[job], EventsOn(s, steps, job), g, write);
    var s' := Exec(s, steps);
    assert s'.db[job := s'.db[job]] == s'.db;
  }

  /** No two promotions of a run are out of order of arrival. */
  lemma SystemFifo(steps: seq<Step>)
    ensures A.Rising(A.Promotions(A.EMPTY, OpsOf(START, steps)), 0)
    ensures Exec(START, steps).slots == A.Run(A.EMPTY, OpsOf(START, steps))
  {
    QueueRuns(START, steps);
    A.PromotionsInOrder(A.EMPTY, OpsOf(START, steps), 0);
  }

  // ---------------------------------------------------------------- cancelling a waiting job

  /** A row with an outbox row belongs to a job in a slot or to a finished one; every other row is still PENDING. */
  lemma OutsideIsPending(s: System, job: JobId)
    requires Inv(s) && job in s.db && job !in s.slots.active && !s.db[job].job.Terminal()
    ensures s.db[job].job.status == PENDING && s.db[job].outbox == map[]
  {
    assert !Settled(s, job);
    assert Lawful(s.db[job]);
  }

  /** In every reachable system a waiting job is finished, or PENDING without an outbox row. */
  lemma WaitingIsPending(steps: seq<Step>, job: JobId)
    requires var s := Exec(START, steps);
             job in A.Jobs(s.slots.waiting) && job in s.db && !s.db[job].job.Terminal()
    ensures var s := Exec(START, steps);
            s.db[job].job.status == PENDING && s.db[job].outbox == map[]
  {
    RunInv(START, steps);
    OutsideIsPending(Exec(START, steps), job);
  }

  /** What cancelling a row answers, whatever became of it: it raises exactly for a leased one. */
  lemma CancelVerdict(e: Entry, now: int)
    ensures Decide(e, Terminalize(CANCELLED, now)).Applied? <==> !e.job.Terminal() && !e.job.Leased()
    ensures Decide(e, Terminalize(CANCELLED, now)).Raised? <==> e.job.Leased()
  {
  }

  /** Another handler asks Redis for this job again. */
  predicate AsksAgain(step: Step, job: JobId) {
    step.AdmitScript? && step.job == job
  }

  lemma StaysOut(s: System, step: Step, job: JobId)
    requires Inv(s) && job !in A.Members(s.slots) && !AsksAgain(step, job)
    ensures job !in A.Members(Take(s, step).slots)
  {
    if Enabled(s, step) && OpOf(step).Some? {
      RedisApplies(s, step);
      A.StepMembers(s.slots, OpOf(step).value);
    } else {
      assert Take(s, step).slots == s.slots;
    }
  }

  lemma {:induction false} StaysOutAll(s: System, steps: seq<Step>, job: JobId)
    requires Inv(s) && job !in A.Members(s.slots) && forall step :: step in steps ==> !AsksAgain(step, job)
    ensures job !in A.Members(Exec(s, steps).slots)
    decreases |steps|
  {
    if steps != [] {
      StaysOut(s, steps[0], job);
      StepInv(s, steps[0]);
      StaysOutAll(Take(s, steps[0]), steps[1..], job);
    }
  }

  lemma CancelledLeaves(s: System, job: JobId)
    requires Inv(s) && A.Cancel(s.slots, job).1
    ensures job !in A.Members(Take(s, CancelScript(job)).slots)
  {
    A.NoLongerQueued(s.slots.waiting, job);
  }

  lemma CancelledStaysOut(s: System, steps: seq<Step>, job: JobId)
    requires Inv(s) && job in s.db && A.Cancel(s.slots, job).1
    requires forall step :: step in steps ==> !AsksAgain(step, job)
    ensures var t := Exec(Take(s, CancelScript(job)), steps);
            Inv(t) && job in t.db && job !in t.slots.active
  {
    var s1 := Take(s, CancelScript(job));
    StepInv(s, CancelScript(job));
    RunInv(s1, steps);
    RowRuns(s1, steps, job);
    CancelledLeaves(s, job);
    StaysOutAll(s1, steps, job);
  }

  /** An unfinished job without a slot can be cancelled. */
  lemma OutsideCancels(t: System, job: JobId, now: int)
    requires Inv(t) && job in t.db && job !in t.slots.active
    ensures !Decide(t.db[job], Terminalize(CANCELLED, now)).Raised?
    ensures Decide(t.db[job], Terminalize(CANCELLED, now)).Applied? <==> !t.db[job].job.Terminal()
  {
    CancelVerdict(t.db[job], now);
    if !t.db[job].job.Terminal() {
      OutsideIsPending(t, job);
    }
  }

  /**
   After Redis has granted the cancellation of a waiting job, any steps may come before the
   row is cancelled. Unless one of them asks for the job again, the row can be cancelled
   exactly until it is finished otherwise, and cancelling it never raises.
   */
  lemma CancellationHolds(s: System, steps: seq<Step>, job: JobId, now: int)
    requires Inv(s) && job in s.db && A.Cancel(s.slots, job).1
    requires forall step :: step in steps ==> !AsksAgain(step, job)
    ensures var t := Exec(Take(s, CancelScript(job)), steps);
            && job in t.db
            && !Decide(t.db[job], Terminalize(CANCELLED, now)).Raised?
            && (Decide(t.db[job], Terminalize(CANCELLED, now)).Applied? <==> !t.db[job].job.Terminal())
  {
    var t := Exec(Take(s, CancelScript(job)), steps);
    CancelledStaysOut(s, steps, job);
    OutsideCancels(t, job, now);
  }

  /** Two games are active and the third waits. */
  function ThreeSubmitted(a: JobId, b: JobId, c: JobId): seq<Step> {
    [AdmitScript(a, false, 0), AdmitScript(b, false, 0), AdmitScript(c, true, 0),
     CommitIngestion(a, true), CommitIngestion(c, false)]
  }

  /** A slot comes free, and the third is submitted again, published and claimed. */
  function ThirdComesBack(a: JobId, c: JobId): seq<Step> {
    [Mutate(a, Terminalize(FAILED, 1)), CompleteScript(a), AdmitScript(c, true, 2), CommitAdmission(c),
     Mutate(c, Publish(0, 3)), Mutate(c, Claim(0, 4, 60))]
  }

  lemma ThirdWaits(a: JobId, b: JobId, c: JobId)
    requires a.owner != b.owner && b.owner != c.owner && c.owner != a.owner
    ensures var s := Exec(START, ThreeSubmitted(a, b, c));
            && s.slots == A.Slots({a, b}, A.Line(A.Waiter(c, 1, 0, false), A.Nobody), 1)
            && s.db == map[a := After(Fresh(a.owner, 1), EnsureOutbox), c := Fresh(c.owner, 1)]
  {
    var steps := ThreeSubmitted(a, b, c);
    var s1 := Take(START, steps[0]);
    assert s1.slots == A.Slots({a}, A.Nobody, 0);
    var s2 := Take(s1, steps[1]);
    assert s2.slots == A.Slots({a, b}, A.Nobody, 0);
    var s3 := Take(s2, steps[2]);
    assert s3.slots == A.Slots({a, b}, A.Line(A.Waiter(c, 1, 0, false), A.Nobody), 1);
    var s4 := Take(s3, steps[3]);
    assert Exec(START, steps) == Exec(s1, steps[1..]);
    assert Exec(s1, steps[1..]) == Exec(s2, steps[2..]);
    assert Exec(s2, steps[2..]) == Exec(s3, steps[3..]);
    assert Exec(s3, steps[3..]) == Exec(s4, steps[4..]);
    ExecLast(s4, steps);
  }

  lemma ExecLast(s: System, steps: seq<Step>)
    requires steps != []
    ensures Exec(s, steps[|steps| - 1..]) == Take(s, steps[|steps| - 1])
  {
    assert steps[|steps| - 1..][1..] == [];
    assert Exec(Take(s, steps[|steps| - 1]), []) == Take(s, steps[|steps| - 1]);
  }

  lemma SlotComesFree(s: System, a: JobId, b: JobId, c: JobId)
    requires a.owner != b.owner && b.owner != c.owner && c.owner != a.owner
    requires s.slots == A.Slots({a, b}, A.Nobody, 1) && a in s.db && s.db[a].job.status == PENDING
    requires c in s.db && s.db[c] == Fresh(c.owner, 1)
    ensures var t := Take(Take(Take(s, Mutate(a, Terminalize(FAILED, 1))), CompleteScript(a)), AdmitScript(c, true, 2));
            c in t.admitted && c in t.db && t.db[c] == Fresh(c.owner, 1)
  {
    var s1 := Take(s, Mutate(a, Terminalize(FAILED, 1)));
    assert s1.db[a].job.Terminal() && s1.db[c] == Fresh(c.owner, 1);
    var s2 := Take(s1, CompleteScript(a));
    assert s2.slots.active == {b} && s2.slots.waiting.Nobody? && s2.db == s1.db;
  }

  lemma AdmittedIsClaimed(s: System, c: JobId)
    requires c in s.admitted && c in s.db && s.db[c] == Fresh(c.owner, 1)
    ensures var t := Take(Take(Take(s, CommitAdmission(c)), Mutate(c, Publish(0, 3))), Mutate(c, Claim(0, 4, 60)));
            c in t.db && t.db[c].job.Leased()
  {
    var s1 := Take(s, CommitAdmission(c));
    assert s1.db[c] == After(s.db[c], EnsureOutbox);
    var s2 := Take(s1, Mutate(c, Publish(0, 3)));
    assert s2.db[c].job.status == QUEUED;
  }

  lemma ThirdIsClaimed(s: System, a: JobId, b: JobId, c: JobId)
    requires a.owner != b.owner && b.owner != c.owner && c.owner != a.owner
    requires s.slots == A.Slots({a, b}, A.Nobody, 1) && a in s.db && s.db[a].job.status == PENDING
    requires c in s.db && s.db[c] == Fresh(c.owner, 1)
    ensures var t := Exec(s, ThirdComesBack(a, c));
            c in t.db && t.db[c].job.Leased()
  {
    var steps := ThirdComesBack(a, c);
    var s3 := Take(Take(Take(s, steps[0]), steps[1]), steps[2]);
    var s5 := Take(Take(s3, steps[3]), steps[4]);
    SlotComesFree(s, a, b, c);
    AdmittedIsClaimed(s3, c);
    assert Exec(s, steps) == Exec(Take(s, steps[0]), steps[1..]);
    assert Exec(Take(s, steps[0]), steps[1..]) == Exec(Take(Take(s, steps[0]), steps[1]), steps[2..]);
    assert Exec(Take(Take(s, steps[0]), steps[1]), steps[2..]) == Exec(s3, steps[3..]);
    assert Exec(s3, steps[3..]) == Exec(Take(s3, steps[3]), steps[4..]);
    assert Exec(Take(s3, steps[3]), steps[4..]) == Exec(s5, steps[5..]);
    ExecLast(s5, steps);
  }

  /**
   If a step does ask again, the promise may fail: the waiting third game is cancelled in
   Redis, comes back and is claimed, and then cancelling its row raises.
   */
  lemma CancellationRace(a: JobId, b: JobId, c: JobId)
    requires a.owner != b.owner && b.owner != c.owner && c.owner != a.owner
    ensures var s := Exec(START, ThreeSubmitted(a, b, c));
            && c in s.db && A.Cancel(s.slots, c).1
            && var t := Exec(Take(s, CancelScript(c)), ThirdComesBack(a, c));
            && c in t.db && Decide(t.db[c], Terminalize(CANCELLED, 5)).Raised?
  {
    ThirdWaits(a, b, c);
    var s := Exec(START, ThreeSubmitted(a, b, c));
    assert A.Keep(A.Nobody, A.Other(c)) == A.Nobody;
    assert Take(s, CancelScript(c)).slots == A.Slots({a, b}, A.Nobody, 1);
    ThirdIsClaimed(Take(s, CancelScript(c)), a, b, c);
    CancelVerdict(Exec(Take(s, CancelScript(c)), ThirdComesBack(a, c)).db[c], 5);
  }
}
