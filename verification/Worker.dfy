/**
 The procedures of `worker.py` that touch both stores, run without interruption. Each is
 proved to be a run of `Protocol`, so safety holds through it; a crash leaves a prefix of
 the same run.
 */
module Worker {
  import opened Common
  import opened JobLifecycle
  import opened JobTable
  import opened Protocol
  import A = Admission
  import J = JobRuns
  import E = JobEffects
  import R = RedisAdmission

  /** The two stores stand where the system state says. */
  ghost predicate At(store: R.Store, table: Table, s: System)
    reads store, table
  {
    store.Valid() && table.Valid() && store.View() == s.slots && table.View() == s.db && OwnersMatch(s.db)
  }

  lemma {:induction false} ExecAppend(s: System, steps: seq<Step>, more: seq<Step>)
    ensures Exec(s, steps + more) == Exec(Exec(s, steps), more)
    decreases |steps|
  {
    if steps == [] {
      assert steps + more == more;
    } else {
      assert (steps + more)[1..] == steps[1..] + more;
      ExecAppend(Take(s, steps[0]), steps[1..], more);
    }
  }

  lemma OwnersStay(db: Ledger, job: JobId, ev: Event)
    requires OwnersMatch(db)
    ensures OwnersMatch(Fire(db, job, ev))
  {
  }

  lemma ExecOne(s: System, step: Step)
    ensures Exec(s, [step]) == Take(s, step)
  {
    assert [step][1..] == [];
    assert Exec(Take(s, step), []) == Take(s, step);
  }

  // ---------------------------------------------------------------- steps of each procedure

  function ReleaseSteps(s: System, job: JobId): seq<Step> {
    var next := A.Complete(s.slots, job).1;
    [CompleteScript(job)]
    + if next.Some? && next.value.job in s.db && s.db[next.value.job].job.status == PENDING
      then [CommitPromotion(next.value.job)] else []
  }

  /** These events end a job when they are accepted. */
  predicate Ends(ev: Event) {
    ev.Complete? || ev.Fail? || ev.Terminalize?
  }

  /** End the job, and release its capacity if that was accepted. */
  function EndingSteps(s: System, job: JobId, ev: Event): seq<Step> {
    [Mutate(job, ev)] + if Accepts(s.db, job, ev) then ReleaseSteps(Take(s, Mutate(job, ev)), job) else []
  }

  function FailureSteps(s: System, job: JobId, now: int): seq<Step> {
    EndingSteps(s, job, Terminalize(FAILED, now))
  }

  function FailureRun(s: System, jobs: seq<JobId>, now: int): seq<Step>
    decreases |jobs|
  {
    if jobs == [] then [] else
    var steps := FailureSteps(s, jobs[0], now);
    steps + FailureRun(Exec(s, steps), jobs[1..], now)
  }

  lemma ReleaseEffect(s: System, job: JobId)
    requires Enabled(s, CompleteScript(job))
    ensures var s' := Exec(s, ReleaseSteps(s, job));
            var (slots, next) := A.Complete(s.slots, job);
            && s'.slots == slots
            && s'.db == (if next.Some? && next.value.job in s.db && s.db[next.value.job].job.status == PENDING
                         then Fire(s.db, next.value.job, EnsureOutbox) else s.db)
  {
    var next := A.Complete(s.slots, job).1;
    ExecOne(s, CompleteScript(job));
    if next.Some? && next.value.job in s.db && s.db[next.value.job].job.status == PENDING {
      ExecAppend(s, [CompleteScript(job)], [CommitPromotion(next.value.job)]);
      ExecOne(Take(s, CompleteScript(job)), CommitPromotion(next.value.job));
    } else {
      assert ReleaseSteps(s, job) == [CompleteScript(job)];
    }
  }

  // ---------------------------------------------------------------- the procedures

  predicate Waiting(db: Ledger, job: JobId) {
    job in db && db[job].job.status == PENDING
  }

  predicate HasFirstRow(db: Ledger, job: JobId) {
    job in db && 0 in db[job].outbox
  }

  lemma ReleasePromotes(s: System, job: JobId)
    requires Enabled(s, CompleteScript(job))
    ensures var next := A.Complete(s.slots, job).1;
            next.Some? && Waiting(s.db, next.value.job)
            ==> HasFirstRow(Exec(s, ReleaseSteps(s, job)).db, next.value.job)
  {
    ReleaseEffect(s, job);
  }

  /** `_release_capacity` */
  method ReleaseCapacity(store: R.Store, table: Table, job: JobId, owner: UserId, ghost s: System)
    requires At(store, table, s) && owner == job.owner && Enabled(s, CompleteScript(job))
    modifies store, table
    ensures At(store, table, Exec(s, ReleaseSteps(s, job)))
    ensures store.View() == A.Complete(s.slots, job).0
    ensures var next := A.Complete(s.slots, job).1;
            next.Some? && Waiting(s.db, next.value.job) ==> HasFirstRow(table.View(), next.value.job)
  {
    ghost var s' := Exec(s, ReleaseSteps(s, job));
    ReleaseEffect(s, job);
    ReleasePromotes(s, job);
    var promoted := store.Complete(job, owner);
    assert store.View() == s'.slots;
    if promoted.None? || promoted.value !in table.jobs || table.jobs[promoted.value].status != PENDING {
      assert table.View() == s'.db;
      return;
    }
    OwnersStay(s.db, promoted.value, EnsureOutbox);
    table.EnsureOutbox(promoted.value);
    assert table.View() == s'.db;
  }

  /** An accepted ending is followed by the release; a refused one ends the procedure. */
  lemma EndingSplits(s: System, job: JobId, ev: Event)
    requires Ends(ev)
    ensures var s1 := Take(s, Mutate(job, ev));
            && s1.slots == s.slots && s1.db == Fire(s.db, job, ev)
            && (OwnersMatch(s.db) ==> OwnersMatch(s1.db))
            && if Accepts(s.db, job, ev)
               then Enabled(s1, CompleteScript(job))
                    && Exec(s, EndingSteps(s, job, ev)) == Exec(s1, ReleaseSteps(s1, job))
               else s1.db == s.db && Exec(s, EndingSteps(s, job, ev)) == s1
  {
    var write := Mutate(job, ev);
    ExecOne(s, write);
    if Accepts(s.db, job, ev) {
      ExecAppend(s, [write], ReleaseSteps(Take(s, write), job));
    } else {
      assert EndingSteps(s, job, ev) == [write];
      assert job in s.db ==> s.db[job := s.db[job]] == s.db;
    }
  }

  predicate Unfinished(db: Ledger, job: JobId) {
    job in db && db[job].job.status !in {SUCCEEDED, FAILED, CANCELLED}
  }

  /** The slot is free, and the first waiter has taken it over. */
  predicate SlotReleased(slots: A.Slots, s: System, job: JobId) {
    slots == A.Complete(s.slots, job).0 && job !in slots.active
  }

  /** The row failed at this time, and its slot is free. */
  predicate FailedAndReleased(slots: A.Slots, db: Ledger, s: System, job: JobId, now: int) {
    && job in db && db[job].job.status == FAILED
    && db[job].job.finishedAt == Some(now) && db[job].job.failedAt == Some(now)
    && SlotReleased(slots, s, job)
  }

  lemma FailureEnds(s: System, job: JobId, now: int)
    requires A.Shape(s.slots)
    ensures var t := Exec(s, FailureSteps(s, job, now));
            if Unfinished(s.db, job) then FailedAndReleased(t.slots, t.db, s, job, now)
            else t.slots == s.slots && t.db == s.db
    ensures Accepts(s.db, job, Terminalize(FAILED, now)) <==> Unfinished(s.db, job)
  {
    if job in s.db {
      E.TerminalizeExactly(s.db[job], FAILED, now);
    }
    if Unfinished(s.db, job) {
      EndingFrees(s, job, Terminalize(FAILED, now));
    } else {
      EndingSplits(s, job, Terminalize(FAILED, now));
    }
  }

  /** `_terminalize_external_failure` */
  method TerminalizeExternalFailure(store: R.Store, table: Table, job: JobId, now: int, ghost s: System)
    returns (accepted: bool)
    requires At(store, table, s)
    modifies store, table
    ensures At(store, table, Exec(s, FailureSteps(s, job, now)))
    ensures accepted <==> Accepts(s.db, job, Terminalize(FAILED, now))
    ensures accepted <==> Unfinished(s.db, job)
    ensures accepted ==> FailedAndReleased(store.View(), table.View(), s, job, now)
    ensures !accepted ==> store.View() == s.slots && table.View() == s.db
  {
    EndingSplits(s, job, Terminalize(FAILED, now));
    FailureEnds(s, job, now);
    if job !in table.jobs {
      return false;
    }
    var owner := table.jobs[job].owner;
    assert s.db[job].job.owner == job.owner;
    var answer := table.TerminalizeJob(job, FAILED, now);
    accepted := answer == Done(true);
    ghost var s1 := Take(s, Mutate(job, Terminalize(FAILED, now)));
    assert At(store, table, s1);
    if accepted {
      ReleaseCapacity(store, table, job, owner, s1);
    }
  }

  /**
   How an execution of a job ends: the time of the finalizing call if it got that far,
   whether that call finds the game available with the run of this generation, and what
   failing would do.
   */
  datatype Ending = Ending(
    worker: WorkerId, generation: nat, finished: Option<int>, published: bool, retryAt: Option<int>, failedAt: int)

  datatype TaskReply = Completed | Failed | FailureRejected | RetryScheduled | RetryRejected

  /** What the exception handler writes: the failure, or the retry. */
  function Rescue(e: Ending): Event {
    if e.retryAt.None? then Fail(e.worker, e.generation, e.failedAt)
    else ScheduleRetry(e.worker, e.generation, e.retryAt.value)
  }

  /** The finalizing write, or else, as after any exception, the handler's. */
  function FinalWrite(s: System, job: JobId, e: Ending): Event {
    if e.finished.Some? && Accepts(s.db, job, Complete(e.worker, e.generation, e.finished.value))
    then Complete(e.worker, e.generation, e.finished.value)
    else Rescue(e)
  }

  function WriteSteps(s: System, job: JobId, write: Event): seq<Step> {
    if Ends(write) then EndingSteps(s, job, write) else [Mutate(job, write)]
  }

  /** The finalizing call finds its generation published and returns the existing run. */
  predicate FindsExisting(s: System, job: JobId, e: Ending) {
    && e.finished.Some? && e.published
    && job in s.db && s.db[job].job.status == SUCCEEDED && s.db[job].job.generation == e.generation
  }

  function FinishSteps(s: System, job: JobId, e: Ending): seq<Step> {
    if FindsExisting(s, job, e) then ReleaseSteps(s, job) else WriteSteps(s, job, FinalWrite(s, job, e))
  }

  function WriteReply(s: System, job: JobId, write: Event): TaskReply {
    if write.Complete? then Completed
    else if write.Fail? then if Accepts(s.db, job, write) then Failed else FailureRejected
    else if Accepts(s.db, job, write) then RetryScheduled else RetryRejected
  }

  function FinishReply(s: System, job: JobId, e: Ending): TaskReply {
    if FindsExisting(s, job, e) then Completed else WriteReply(s, job, FinalWrite(s, job, e))
  }

  // What the row says of an execution that ends, and what has to stand in both stores afterwards.

  /** The worker still holds the row under its generation. */
  predicate StillHolds(db: Ledger, job: JobId, e: Ending) {
    job in db && db[job].job.worker == Some(e.worker) && db[job].job.generation == e.generation
  }

  predicate MayComplete(db: Ledger, job: JobId, e: Ending) {
    e.finished.Some? && StillHolds(db, job, e) && db[job].job.status == RUNNING
  }

  predicate MayFail(db: Ledger, job: JobId, e: Ending) {
    StillHolds(db, job, e) && db[job].job.status !in {SUCCEEDED, FAILED, CANCELLED}
  }

  predicate MayRetry(db: Ledger, job: JobId, e: Ending) {
    StillHolds(db, job, e) && (db[job].job.status == CLAIMED || db[job].job.status == RUNNING)
  }

  /** The row succeeded when the analysis finished. */
  predicate CompletedIn(slots: A.Slots, db: Ledger, s: System, job: JobId, e: Ending)
    requires e.finished.Some?
  {
    && job in db && db[job].job.status == SUCCEEDED
    && db[job].job.finishedAt == e.finished && db[job].job.completedAt == e.finished
    && SlotReleased(slots, s, job)
  }

  predicate FailedIn(slots: A.Slots, db: Ledger, s: System, job: JobId, e: Ending) {
    FailedAndReleased(slots, db, s, job, e.failedAt)
  }

  /** The row waits for its retry, with an outbox row of the same time, and keeps its slot. */
  predicate RetriedIn(slots: A.Slots, db: Ledger, s: System, job: JobId, e: Ending) {
    && job in s.db && job in db && e.retryAt.Some?
    && E.WaitsForRetry(s.db[job], db[job], e.retryAt.value)
    && slots == s.slots
  }

  /** The row is as it was, and its slot is free. */
  predicate ReleasedAgain(slots: A.Slots, db: Ledger, s: System, job: JobId) {
    job in s.db && job in db && db[job].job == s.db[job].job && SlotReleased(slots, s, job)
  }

  /** One accepted or refused write that ends the job, and the release if it was accepted. */
  method EndJob(store: R.Store, table: Table, job: JobId, owner: UserId, ev: Event, ghost s: System)
    returns (accepted: bool)
    requires At(store, table, s) && owner == job.owner && (ev.Complete? || ev.Fail?)
    modifies store, table
    ensures At(store, table, Exec(s, EndingSteps(s, job, ev)))
    ensures accepted <==> Accepts(s.db, job, ev)
  {
    EndingSplits(s, job, ev);
    if ev.Complete? {
      accepted := table.CompleteJob(job, ev.worker, ev.generation, ev.now);
    } else {
      accepted := table.FailJob(job, ev.worker, ev.generation, ev.now);
    }
    ghost var s1 := Take(s, Mutate(job, ev));
    assert At(store, table, s1);
    if accepted {
      ReleaseCapacity(store, table, job, owner, s1);
    }
  }

  lemma RefusedEnding(s: System, job: JobId, ev: Event)
    requires Ends(ev) && !Accepts(s.db, job, ev)
    ensures Exec(s, EndingSteps(s, job, ev)).db == s.db && Exec(s, EndingSteps(s, job, ev)).slots == s.slots
  {
    EndingSplits(s, job, ev);
  }

  /** A mutation step is its event on the row; a missing row makes both nothing. */
  lemma MutationFires(s: System, job: JobId, ev: Event)
    requires !ev.EnsureOutbox?
    ensures Take(s, Mutate(job, ev)).db == Fire(s.db, job, ev) && Take(s, Mutate(job, ev)).slots == s.slots
  {
  }

  /** The exception handler of `_run_analysis`, with its release. */
  method HandleFailure(store: R.Store, table: Table, job: JobId, owner: UserId, e: Ending, ghost s: System)
    returns (reply: TaskReply)
    requires At(store, table, s) && owner == job.owner
    modifies store, table
    ensures At(store, table, Exec(s, WriteSteps(s, job, Rescue(e))))
    ensures reply == WriteReply(s, job, Rescue(e))
  {
    if e.retryAt.None? {
      var failed := EndJob(store, table, job, owner, Fail(e.worker, e.generation, e.failedAt), s);
      return if failed then Failed else FailureRejected;
    }
    ghost var retry := Rescue(e);
    MutationFires(s, job, retry);
    ExecOne(s, Mutate(job, retry));
    OwnersStay(s.db, job, retry);
    var scheduled := table.ScheduleRetry(job, e.worker, e.generation, e.retryAt.value);
    assert At(store, table, Take(s, Mutate(job, retry)));
    return if scheduled then RetryScheduled else RetryRejected;
  }

  /** `_run_analysis` from the analysis on, with both of its releases; `owner` is that of the row it claimed. */
  method FinishTask(store: R.Store, table: Table, job: JobId, owner: UserId, e: Ending, ghost s: System)
    returns (reply: TaskReply)
    requires At(store, table, s) && owner == job.owner
    modifies store, table
    ensures At(store, table, Exec(s, FinishSteps(s, job, e)))
    ensures reply == FinishReply(s, job, e)
    ensures reply.Completed? && !MayComplete(s.db, job, e) <==>
              && e.finished.Some? && e.published
              && job in s.db && s.db[job].job.status == SUCCEEDED && s.db[job].job.generation == e.generation
    ensures MayComplete(s.db, job, e) ==> reply.Completed? && CompletedIn(store.View(), table.View(), s, job, e)
    ensures reply.Completed? && !MayComplete(s.db, job, e) ==> ReleasedAgain(store.View(), table.View(), s, job)
    ensures !reply.Completed? && e.retryAt.None? ==>
              && (reply.Failed? <==> MayFail(s.db, job, e))
              && (reply.FailureRejected? <==> !MayFail(s.db, job, e))
    ensures reply.Failed? ==> FailedIn(store.View(), table.View(), s, job, e)
    ensures !reply.Completed? && e.retryAt.Some? ==>
              && (reply.RetryScheduled? <==> MayRetry(s.db, job, e))
              && (reply.RetryRejected? <==> !MayRetry(s.db, job, e))
    ensures reply.RetryScheduled? ==> RetriedIn(store.View(), table.View(), s, job, e)
    ensures reply.FailureRejected? || reply.RetryRejected? ==> store.View() == s.slots && table.View() == s.db
  {
    FinishAnswers(s, job, e);
    FinishWrites(s, job, e);
    if e.finished.Some? && e.published && job in table.jobs
       && table.jobs[job].status == SUCCEEDED && table.jobs[job].generation == e.generation {
      ReleaseCapacity(store, table, job, owner, s);
      return Completed;
    }
    if e.finished.Some? {
      ghost var complete := Complete(e.worker, e.generation, e.finished.value);
      if !Accepts(s.db, job, complete) {
        RefusedEnding(s, job, complete);
      }
      var completed := EndJob(store, table, job, owner, Complete(e.worker, e.generation, e.finished.value), s);
      if completed {
        return Completed;
      }
    }
    reply := HandleFailure(store, table, job, owner, e, s);
  }

  lemma FirstRowWritten(db: Ledger, next: JobId, job: JobId)
    requires next in db && job in db
    ensures var db' := Fire(db, next, EnsureOutbox);
            next in db' && job in db' && 0 in db'[next].outbox && db'[job].job == db[job].job
  {
  }

  /** The release of a finished job frees its slot and leaves its row. */
  lemma ReleaseFrees(s: System, job: JobId)
    requires A.Shape(s.slots) && Enabled(s, CompleteScript(job))
    ensures var s' := Exec(s, ReleaseSteps(s, job));
            && job in s'.db && s'.db[job].job == s.db[job].job
            && s'.slots == A.Complete(s.slots, job).0 && job !in s'.slots.active
            && (job !in s.slots.active ==> s'.slots == s.slots && s'.db == s.db)
  {
    ReleaseEffect(s, job);
    A.CompleteShape(s.slots, job);
    var next := A.Complete(s.slots, job).1;
    if next.Some? && next.value.job in s.db {
      FirstRowWritten(s.db, next.value.job, job);
    }
  }

  /** An accepted ending frees the slot. */
  lemma EndingFrees(s: System, job: JobId, ev: Event)
    requires A.Shape(s.slots) && Ends(ev) && Accepts(s.db, job, ev)
    ensures var s' := Exec(s, EndingSteps(s, job, ev));
            && job in s'.db && s'.db[job].job == After(s.db[job], ev).job
            && s'.slots == A.Complete(s.slots, job).0 && job !in s'.slots.active
  {
    EndingSplits(s, job, ev);
    ReleaseFrees(Take(s, Mutate(job, ev)), job);
  }

  /** And it hands the slot on: the first waiter, if still PENDING, gets its outbox row. */
  lemma EndingHandsOn(s: System, job: JobId, ev: Event, next: JobId)
    requires Ends(ev) && Accepts(s.db, job, ev) && next != job
    requires A.Complete(s.slots, job).1.Some? && A.Complete(s.slots, job).1.value.job == next
    requires next in s.db && s.db[next].job.status == PENDING
    ensures var s' := Exec(s, EndingSteps(s, job, ev));
            next in s'.slots.active && next in s'.db && 0 in s'.db[next].outbox
  {
    var s1 := Take(s, Mutate(job, ev));
    EndingSplits(s, job, ev);
    ReleaseEffect(s1, job);
    FirstRowWritten(s1.db, next, job);
  }

  lemma EndStatus(e: Entry, ev: Event)
    requires (ev.Complete? || ev.Fail?) && Decide(e, ev).Applied?
    ensures After(e, ev).job.status == if ev.Complete? then SUCCEEDED else FAILED
  {
  }

  /** COMPLETED and FAILED end the job and free its slot. */
  lemma FinishFrees(s: System, job: JobId, e: Ending)
    requires Protocol.Inv(s) && FinishReply(s, job, e) in {Completed, Failed}
    ensures var s' := Exec(s, FinishSteps(s, job, e));
            && job in s'.db
            && s'.db[job].job.status == (if FinishReply(s, job, e).Completed? then SUCCEEDED else FAILED)
            && s'.slots == A.Complete(s.slots, job).0 && job !in s'.slots.active
  {
    if FindsExisting(s, job, e) {
      ReleaseFrees(s, job);
    } else {
      var write := FinalWrite(s, job, e);
      assert Ends(write) && Accepts(s.db, job, write);
      EndingFrees(s, job, write);
      EndStatus(s.db[job], write);
    }
  }

  /** Any other reply leaves the slots alone, and Postgres too unless a retry was scheduled. */
  lemma FinishKeeps(s: System, job: JobId, e: Ending)
    requires FinishReply(s, job, e) !in {Completed, Failed}
    ensures var s' := Exec(s, FinishSteps(s, job, e));
            && s'.slots == s.slots
            && if FinishReply(s, job, e).RetryScheduled?
               then job in s'.db && s'.db[job].job.status == RETRY_SCHEDULED
               else s'.db == s.db
  {
    var write := FinalWrite(s, job, e);
    if Ends(write) {
      EndingSplits(s, job, write);
    } else {
      ExecOne(s, Mutate(job, write));
      assert job in s.db ==> s.db[job := s.db[job]] == s.db;
    }
  }

  lemma WritesDecided(e: Entry, w: WorkerId, g: nat, at: int)
    ensures Decide(e, Complete(w, g, at)).Applied? <==> e.job.status == RUNNING && E.Holds(e.job, w, g)
    ensures Decide(e, Fail(w, g, at)).Applied? <==>
            e.job.status !in {SUCCEEDED, FAILED, CANCELLED} && E.Holds(e.job, w, g)
    ensures Decide(e, ScheduleRetry(w, g, at)).Applied? <==>
            (e.job.status == CLAIMED || e.job.status == RUNNING) && E.Holds(e.job, w, g)
  {
    E.CompleteExactly(e, w, g, at);
    E.FailExactly(e, w, g, at);
    E.ScheduleRetryExactly(e, w, g, at);
  }

  /** Which of the five replies, from the row as it stands. */
  lemma FinishAnswers(s: System, job: JobId, e: Ending)
    ensures FinishReply(s, job, e).Completed? <==> FindsExisting(s, job, e) || MayComplete(s.db, job, e)
    ensures !FinishReply(s, job, e).Completed? ==>
              FinishReply(s, job, e) == (if e.retryAt.None?
                                         then if MayFail(s.db, job, e) then Failed else FailureRejected
                                         else if MayRetry(s.db, job, e) then RetryScheduled else RetryRejected)
  {
    if job in s.db {
      if e.finished.Some? {
        WritesDecided(s.db[job], e.worker, e.generation, e.finished.value);
      }
      WritesDecided(s.db[job], e.worker, e.generation, if e.retryAt.Some? then e.retryAt.value else e.failedAt);
    }
  }

  lemma CompletedWrites(s: System, job: JobId, e: Ending)
    requires A.Shape(s.slots) && MayComplete(s.db, job, e)
    ensures var t := Exec(s, FinishSteps(s, job, e));
            CompletedIn(t.slots, t.db, s, job, e)
  {
    E.CompleteExactly(s.db[job], e.worker, e.generation, e.finished.value);
    EndingFrees(s, job, Complete(e.worker, e.generation, e.finished.value));
  }

  lemma FailedWrites(s: System, job: JobId, e: Ending)
    requires A.Shape(s.slots) && FinishReply(s, job, e).Failed?
    ensures var t := Exec(s, FinishSteps(s, job, e));
            FailedIn(t.slots, t.db, s, job, e)
  {
    E.FailExactly(s.db[job], e.worker, e.generation, e.failedAt);
    EndingFrees(s, job, Fail(e.worker, e.generation, e.failedAt));
  }

  lemma RetriedWrites(s: System, job: JobId, e: Ending)
    requires FinishReply(s, job, e).RetryScheduled?
    ensures var t := Exec(s, FinishSteps(s, job, e));
            RetriedIn(t.slots, t.db, s, job, e)
  {
    var retry := Event.ScheduleRetry(e.worker, e.generation, e.retryAt.value);
    E.ScheduleRetryExactly(s.db[job], e.worker, e.generation, e.retryAt.value);
    MutationFires(s, job, retry);
    ExecOne(s, Mutate(job, retry));
  }

  /** And what each of them leaves in the stores. */
  lemma FinishWrites(s: System, job: JobId, e: Ending)
    requires A.Shape(s.slots)
    ensures var t := Exec(s, FinishSteps(s, job, e));
            && (FindsExisting(s, job, e) ==> ReleasedAgain(t.slots, t.db, s, job))
            && (MayComplete(s.db, job, e) ==> CompletedIn(t.slots, t.db, s, job, e))
            && (FinishReply(s, job, e).Failed? ==> FailedIn(t.slots, t.db, s, job, e))
            && (FinishReply(s, job, e).RetryScheduled? ==> RetriedIn(t.slots, t.db, s, job, e))
            && (FinishReply(s, job, e) in {FailureRejected, RetryRejected} ==> t.slots == s.slots && t.db == s.db)
  {
    var reply := FinishReply(s, job, e);
    if FindsExisting(s, job, e) {
      ReleaseFrees(s, job);
    } else if MayComplete(s.db, job, e) {
      CompletedWrites(s, job, e);
    }
    if reply.Failed? {
      FailedWrites(s, job, e);
    } else if reply.RetryScheduled? {
      RetriedWrites(s, job, e);
    } else if !reply.Completed? {
      FinishKeeps(s, job, e);
    }
  }

  /**
   A worker whose generation is over never changes its row, whatever happened in between. If
   it finds its own run published it repeats the release, which changes nothing once the slot
   is free; otherwise it is rejected and changes neither store.
   */
  lemma LateWorker(s: System, steps: seq<Step>, job: JobId, e: Ending)
    requires Protocol.Inv(s) && job in s.db && J.Over(s.db[job].job, e.generation)
    ensures var t := Exec(s, steps);
            var t' := Exec(t, FinishSteps(t, job, e));
            && job in t.db && job in t'.db && t'.db[job].job == t.db[job].job
            && (FinishReply(t, job, e).Completed? <==> FindsExisting(t, job, e))
            && (FindsExisting(t, job, e) ==> t'.slots == A.Complete(t.slots, job).0)
            && (!FindsExisting(t, job, e) ==> FinishReply(t, job, e) in {FailureRejected, RetryRejected})
            && (!FindsExisting(t, job, e) || job !in t.slots.active ==> t'.slots == t.slots && t'.db == t.db)
  {
    var t := Exec(s, steps);
    RowRuns(s, steps, job);
    if FindsExisting(t, job, e) {
      RunInv(s, steps);
      ReleaseFrees(t, job);
    } else {
      LateIsRejected(s, steps, job, e);
    }
  }

  lemma LateIsRejected(s: System, steps: seq<Step>, job: JobId, e: Ending)
    requires Protocol.Inv(s) && job in s.db && J.Over(s.db[job].job, e.generation)
    requires !FindsExisting(Exec(s, steps), job, e)
    ensures var t := Exec(s, steps);
            && FinishReply(t, job, e) in {FailureRejected, RetryRejected}
            && Exec(t, FinishSteps(t, job, e)).slots == t.slots && Exec(t, FinishSteps(t, job, e)).db == t.db
  {
    var t := Exec(s, steps);
    RowRuns(s, steps, job);
    if e.finished.Some? {
      J.Fencing(s.db[job], EventsOn(s, steps, job), e.generation, Complete(e.worker, e.generation, e.finished.value));
    }
    J.Fencing(s.db[job], EventsOn(s, steps, job), e.generation, FinalWrite(t, job, e));
    FinishKeeps(t, job, e);
  }

  /** The loop of both sweeps: terminalize each listed job and count the acceptances. */
  method TerminalizeEach(store: R.Store, table: Table, jobs: seq<JobId>, now: int, ghost s: System)
    returns (terminalized: nat)
    requires At(store, table, s)
    modifies store, table
    ensures At(store, table, Exec(s, FailureRun(s, jobs, now)))
    ensures terminalized == Accepted(s, jobs, now)
  {
    terminalized := 0;
    ghost var here := s;
    var i := 0;
    while i < |jobs|
      invariant 0 <= i <= |jobs| && At(store, table, here)
      invariant Exec(here, FailureRun(here, jobs[i..], now)) == Exec(s, FailureRun(s, jobs, now))
      invariant terminalized + Accepted(here, jobs[i..], now) == Accepted(s, jobs, now)
    {
      assert jobs[i..][1..] == jobs[i + 1..];
      ghost var steps := FailureSteps(here, jobs[i], now);
      ExecAppend(here, steps, FailureRun(Exec(here, steps), jobs[i + 1..], now));
      var accepted := TerminalizeExternalFailure(store, table, jobs[i], now, here);
      if accepted {
        terminalized := terminalized + 1;
      }
      here := Exec(here, steps);
      i := i + 1;
    }
  }

  function Accepted(s: System, jobs: seq<JobId>, now: int): nat
    decreases |jobs|
  {
    if jobs == [] then 0 else
    (if Accepts(s.db, jobs[0], Terminalize(FAILED, now)) then 1 else 0)
    + Accepted(Exec(s, FailureSteps(s, jobs[0], now)), jobs[1..], now)
  }

  predicate LeaseRanOut(db: Ledger, id: JobId, now: int) {
    && id in db && db[id].job.Leased()
    && db[id].job.leaseExpires.Some? && db[id].job.leaseExpires.value <= now
  }

  /** The CLAIMED and RUNNING jobs whose lease has run out. */
  function RanOut(db: Ledger, now: int): set<JobId> {
    set id | id in db && LeaseRanOut(db, id, now)
  }

  function ExpiryIn(jobs: map<JobId, Job>): JobId -> int {
    (id: JobId) => if id in jobs && jobs[id].leaseExpires.Some? then jobs[id].leaseExpires.value else 0
  }

  function JobsIn(db: Ledger): map<JobId, Job> {
    map id | id in db :: db[id].job
  }

  const SWEEP_LIMIT := 100

  /** `list_expired_active_jobs`: the leases that ran out first. */
  method ListExpiredActive(table: Table, now: int, limit: nat) returns (ids: seq<JobId>)
    ensures FirstBy(ids, RanOut(table.View(), now), limit, ExpiryIn(JobsIn(table.View())))
  {
    var jobs := table.jobs;
    assert JobsIn(table.View()) == jobs;
    var ranOut := set id | id in jobs && jobs[id].Leased()
                           && jobs[id].leaseExpires.Some? && jobs[id].leaseExpires.value <= now;
    assert ranOut == RanOut(table.View(), now);
    ids := TakeFirst(ranOut, limit, ExpiryIn(jobs));
  }

  function SweepSteps(s: System, now: int, waited: seq<JobId>, expired: seq<JobId>): seq<Step> {
    var s1 := Take(s, SweepScript(now));
    var s2 := Exec(s1, FailureRun(s1, waited, now));
    [SweepScript(now)] + FailureRun(s1, waited, now) + FailureRun(s2, expired, now)
  }

  /** The state between the two loops of the sweep. */
  function AfterWaiting(s: System, now: int, waited: seq<JobId>): System {
    var s1 := Take(s, SweepScript(now));
    Exec(s1, FailureRun(s1, waited, now))
  }

  /** `_sweep_lifecycle`; `waited` and `expired` are the two lists it worked through. */
  method SweepLifecycle(store: R.Store, table: Table, now: int, ghost s: System)
    returns (terminalized: nat, ghost waited: seq<JobId>, ghost expired: seq<JobId>)
    requires At(store, table, s)
    modifies store, table
    ensures At(store, table, Exec(s, SweepSteps(s, now, waited, expired)))
    ensures waited == R.JobList(A.Sweep(s.slots, now).1)
    ensures var db := AfterWaiting(s, now, waited).db;
            FirstBy(expired, RanOut(db, now), SWEEP_LIMIT, ExpiryIn(JobsIn(db)))
    ensures Swept(s, Exec(s, SweepSteps(s, now, waited, expired)), now, terminalized)
  {
    var overdue := store.Sweep(now);
    ghost var s1 := Take(s, SweepScript(now));
    terminalized := TerminalizeEach(store, table, overdue, now, s1);
    ghost var s2 := Exec(s1, FailureRun(s1, overdue, now));
    var lost := ListExpiredActive(table, now, SWEEP_LIMIT);
    var more := TerminalizeEach(store, table, lost, now, s2);
    waited, expired := overdue, lost;
    SweepStates(s, now, waited, expired);
    SweepOutcome(s, now, waited, expired);
    terminalized := terminalized + more;
  }

  /** The jobs finished for good. */
  function Finished(db: Ledger): set<JobId> {
    set id | id in db && db[id].job.Terminal()
  }

  /** What an uninterrupted sweep achieves: nobody overdue waits, and the count is exact. */
  ghost predicate Swept(s: System, s': System, now: int, count: nat) {
    && (forall w :: A.In(w, s'.slots.waiting) ==> now < w.Deadline())
    && count + |Finished(s.db)| == |Finished(s'.db)|
  }

  /** Between two states of a failure loop over these jobs: they are finished, no other row moved, nobody queued up. */
  ghost predicate Progress(s: System, s': System, jobs: seq<JobId>) {
    && (forall id :: id in s.db <==> id in s'.db)
    && (forall id :: id in s.db && id !in jobs ==> s'.db[id].job == s.db[id].job)
    && (forall id :: id in s.db && (id in jobs || s.db[id].job.Terminal()) ==> s'.db[id].job.Terminal())
    && (forall w :: A.In(w, s'.slots.waiting) ==> A.In(w, s.slots.waiting))
  }

  lemma ProgressOn(s: System, s1: System, s2: System, job: JobId, jobs: seq<JobId>)
    requires Progress(s, s1, [job]) && Progress(s1, s2, jobs)
    ensures Progress(s, s2, [job] + jobs)
  {
    forall id | id in s.db
      ensures id !in [job] + jobs ==> s2.db[id].job == s.db[id].job
      ensures id in [job] + jobs || s.db[id].job.Terminal() ==> s2.db[id].job.Terminal()
    {
      assert id in s1.db;
    }
  }

  lemma FailureVerdict(e: Entry, now: int)
    ensures var e' := After(e, Terminalize(FAILED, now));
            && e'.job.Terminal() && (e.job.Terminal() ==> e' == e)
            && (Decide(e, Terminalize(FAILED, now)).Applied? <==> !e.job.Terminal())
  {
  }

  lemma WriteProgress(s: System, job: JobId, now: int)
    ensures var s' := Take(s, Mutate(job, Terminalize(FAILED, now)));
            && Progress(s, s', [job])
            && Finished(s'.db) == Finished(s.db) + if Accepts(s.db, job, Terminalize(FAILED, now)) then {job} else {}
  {
    MutationFires(s, job, Terminalize(FAILED, now));
    if job in s.db {
      FailureVerdict(s.db[job], now);
    }
  }

  lemma ReleaseProgress(s: System, job: JobId)
    requires Enabled(s, CompleteScript(job))
    ensures Progress(s, Exec(s, ReleaseSteps(s, job)), [])
    ensures Finished(Exec(s, ReleaseSteps(s, job)).db) == Finished(s.db)
  {
    ReleaseEffect(s, job);
  }

  lemma FailureEffect(s: System, job: JobId, now: int)
    ensures var s' := Exec(s, FailureSteps(s, job, now));
            && Progress(s, s', [job])
            && Finished(s'.db) == Finished(s.db) + if Accepts(s.db, job, Terminalize(FAILED, now)) then {job} else {}
  {
    var s1 := Take(s, Mutate(job, Terminalize(FAILED, now)));
    EndingSplits(s, job, Terminalize(FAILED, now));
    WriteProgress(s, job, now);
    if Accepts(s.db, job, Terminalize(FAILED, now)) {
      ReleaseProgress(s1, job);
      ProgressOn(s, s1, Exec(s, FailureSteps(s, job, now)), job, []);
      assert [job] + [] == [job];
    }
  }

  lemma {:induction false} FailureProgress(s: System, jobs: seq<JobId>, now: int)
    ensures Progress(s, Exec(s, FailureRun(s, jobs, now)), jobs)
    decreases |jobs|
  {
    if jobs != [] {
      var steps := FailureSteps(s, jobs[0], now);
      var s1 := Exec(s, steps);
      FailureEffect(s, jobs[0], now);
      FailureProgress(s1, jobs[1..], now);
      ExecAppend(s, steps, FailureRun(s1, jobs[1..], now));
      ProgressOn(s, s1, Exec(s1, FailureRun(s1, jobs[1..], now)), jobs[0], jobs[1..]);
      assert [jobs[0]] + jobs[1..] == jobs;
    }
  }

  lemma {:induction false} FailureAdmitsNobody(s: System, jobs: seq<JobId>, now: int, id: JobId)
    ensures forall step :: step in FailureRun(s, jobs, now) ==> !AsksAgain(step, id)
    decreases |jobs|
  {
    if jobs != [] {
      FailureAdmitsNobody(Exec(s, FailureSteps(s, jobs[0], now)), jobs[1..], now, id);
    }
  }

  /** A finished job outside the queue stays so while nobody asks for it. */
  lemma StaysFinished(s: System, steps: seq<Step>, id: JobId)
    requires Protocol.Inv(s) && id in s.db && s.db[id].job.Terminal() && id !in A.Members(s.slots)
    requires forall step :: step in steps ==> !AsksAgain(step, id)
    ensures var t := Exec(s, steps);
            id in t.db && t.db[id].job == s.db[id].job && id !in A.Members(t.slots)
  {
    RowRuns(s, steps, id);
    J.Absorbing(s.db[id], EventsOn(s, steps, id));
    StaysOutAll(s, steps, id);
  }

  lemma FailureStepInv(s: System, job: JobId, now: int)
    requires Protocol.Inv(s)
    ensures var t := Exec(s, FailureSteps(s, job, now));
            Protocol.Inv(t) && A.Jobs(t.slots.waiting) <= A.Jobs(s.slots.waiting)
    ensures var t := Exec(s, FailureSteps(s, job, now));
            Unfinished(s.db, job) && job !in A.Jobs(s.slots.waiting) ==> job !in A.Members(t.slots)
  {
    RunInv(s, FailureSteps(s, job, now));
    FailureEnds(s, job, now);
    A.CompleteShape(s.slots, job);
  }

  /** The job failed at this time and holds no slot and no place. */
  predicate FailedForGood(t: System, id: JobId, now: int) {
    && id in t.db && t.db[id].job.status == FAILED
    && t.db[id].job.finishedAt == Some(now) && t.db[id].job.failedAt == Some(now)
    && id !in A.Members(t.slots)
  }

  lemma FailsAtOnce(s: System, id: JobId, now: int)
    requires Protocol.Inv(s) && Unfinished(s.db, id) && id !in A.Jobs(s.slots.waiting)
    ensures FailedForGood(Exec(s, FailureSteps(s, id, now)), id, now)
  {
    FailureEnds(s, id, now);
    FailureStepInv(s, id, now);
  }

  lemma StaysFailed(s: System, jobs: seq<JobId>, now: int, id: JobId)
    requires Protocol.Inv(s) && FailedForGood(s, id, now)
    ensures FailedForGood(Exec(s, FailureRun(s, jobs, now)), id, now)
  {
    FailureAdmitsNobody(s, jobs, now, id);
    StaysFinished(s, FailureRun(s, jobs, now), id);
  }

  lemma RowUntouched(s: System, s': System, job: JobId, id: JobId)
    requires Progress(s, s', [job]) && Unfinished(s.db, id) && id != job
    ensures Unfinished(s'.db, id)
  {
    assert id !in [job];
  }

  lemma OtherStaysUnfinished(s: System, job: JobId, now: int, id: JobId)
    requires Protocol.Inv(s) && Unfinished(s.db, id) && id !in A.Jobs(s.slots.waiting) && id != job
    ensures var t := Exec(s, FailureSteps(s, job, now));
            Protocol.Inv(t) && Unfinished(t.db, id) && id !in A.Jobs(t.slots.waiting)
  {
    FailureStepInv(s, job, now);
    FailureEffect(s, job, now);
    RowUntouched(s, Exec(s, FailureSteps(s, job, now)), job, id);
  }

  /** Every listed job that was unfinished and not waiting ends FAILED at this time and holds nothing any more. */
  lemma {:induction false} FailuresEnd(s: System, jobs: seq<JobId>, now: int, id: JobId)
    requires Protocol.Inv(s) && id in jobs && Unfinished(s.db, id) && id !in A.Jobs(s.slots.waiting)
    ensures FailedForGood(Exec(s, FailureRun(s, jobs, now)), id, now)
    decreases |jobs|
  {
    var steps := FailureSteps(s, jobs[0], now);
    var s1 := Exec(s, steps);
    ExecAppend(s, steps, FailureRun(s1, jobs[1..], now));
    if jobs[0] == id {
      FailsAtOnce(s, id, now);
      RunInv(s, steps);
      StaysFailed(s1, jobs[1..], now, id);
    } else {
      OtherStaysUnfinished(s, jobs[0], now, id);
      FailuresEnd(s1, jobs[1..], now, id);
    }
  }

  lemma {:induction false} ExpiredLeave(q: A.Queue, now: int, id: JobId, low: int, high: int)
    requires A.Ordered(q, low, high) && id in R.JobList(A.Keep(q, A.Expired(now)))
    ensures id in A.Jobs(q) && id !in A.Jobs(A.Keep(q, A.Unexpired(now)))
    decreases q
  {
    R.KeptJobs(q.rest, A.Unexpired(now));
    R.KeptJobs(q.rest, A.Expired(now));
    R.ListedJobs(A.Keep(q.rest, A.Expired(now)));
    if id in R.JobList(A.Keep(q.rest, A.Expired(now))) {
      ExpiredLeave(q.rest, now, id, q.first.ticket, high);
    }
  }

  lemma SweepScriptLeaves(s: System, now: int, id: JobId)
    requires Protocol.Inv(s) && Unfinished(s.db, id) && id in R.JobList(A.Sweep(s.slots, now).1)
    ensures var s1 := Take(s, SweepScript(now));
            Protocol.Inv(s1) && Unfinished(s1.db, id) && id !in A.Jobs(s1.slots.waiting)
  {
    StepInv(s, SweepScript(now));
    ExpiredLeave(s.slots.waiting, now, id, -1, s.slots.ticket);
  }

  lemma WaitedEnds(s: System, now: int, waited: seq<JobId>, id: JobId)
    requires Protocol.Inv(s) && Unfinished(s.db, id)
    requires waited == R.JobList(A.Sweep(s.slots, now).1) && id in waited
    ensures FailedForGood(AfterWaiting(s, now, waited), id, now)
  {
    SweepScriptLeaves(s, now, id);
    FailuresEnd(Take(s, SweepScript(now)), waited, now, id);
  }

  lemma AfterWaitingInv(s: System, now: int, waited: seq<JobId>)
    requires Protocol.Inv(s)
    ensures Protocol.Inv(AfterWaiting(s, now, waited))
  {
    var s1 := Take(s, SweepScript(now));
    StepInv(s, SweepScript(now));
    RunInv(s1, FailureRun(s1, waited, now));
  }

  lemma ExpiredEnds(s: System, now: int, expired: seq<JobId>, id: JobId)
    requires Protocol.Inv(s) && id in expired && id in RanOut(s.db, now)
    ensures FailedForGood(Exec(s, FailureRun(s, expired, now)), id, now)
  {
    LeasedIsActive(s, id, now);
    FailuresEnd(s, expired, now, id);
  }

  /** In a reachable system the sweep fails every unfinished job it lists, and leaves it no slot and no place. */
  lemma SweepEnds(s: System, now: int, waited: seq<JobId>, expired: seq<JobId>, id: JobId)
    requires Protocol.Inv(s) && Unfinished(s.db, id)
    requires waited == R.JobList(A.Sweep(s.slots, now).1)
    requires var db := AfterWaiting(s, now, waited).db;
             FirstBy(expired, RanOut(db, now), SWEEP_LIMIT, ExpiryIn(JobsIn(db)))
    requires id in waited || id in expired
    ensures FailedForGood(Exec(s, SweepSteps(s, now, waited, expired)), id, now)
  {
    var s2 := AfterWaiting(s, now, waited);
    AfterWaitingInv(s, now, waited);
    SweepStates(s, now, waited, expired);
    if id in waited {
      WaitedEnds(s, now, waited, id);
      StaysFailed(s2, expired, now, id);
    } else {
      ExpiredEnds(s2, now, expired, id);
    }
  }

  lemma LeasedIsActive(s: System, id: JobId, now: int)
    requires Protocol.Inv(s) && LeaseRanOut(s.db, id, now)
    ensures Unfinished(s.db, id) && id in s.slots.active && id !in A.Jobs(s.slots.waiting)
  {
    InvSafety(s);
  }

  lemma AcceptedWasLive(db: Ledger, job: JobId, now: int)
    requires Accepts(db, job, Terminalize(FAILED, now))
    ensures job !in Finished(db)
  {
  }

  lemma FailureAdds(s: System, job: JobId, now: int)
    ensures |Finished(Exec(s, FailureSteps(s, job, now)).db)|
            == |Finished(s.db)| + if Accepts(s.db, job, Terminalize(FAILED, now)) then 1 else 0
  {
    var before, after := Finished(s.db), Finished(Exec(s, FailureSteps(s, job, now)).db);
    FailureEffect(s, job, now);
    if Accepts(s.db, job, Terminalize(FAILED, now)) {
      AcceptedWasLive(s.db, job, now);
      assert after == before + {job};
    } else {
      assert after == before;
    }
  }

  /** The count the loop returns is the number of jobs it finished. */
  lemma {:induction false} FailureCount(s: System, jobs: seq<JobId>, now: int)
    ensures Accepted(s, jobs, now) + |Finished(s.db)| == |Finished(Exec(s, FailureRun(s, jobs, now)).db)|
    decreases |jobs|
  {
    if jobs != [] {
      var steps := FailureSteps(s, jobs[0], now);
      FailureAdds(s, jobs[0], now);
      FailureCount(Exec(s, steps), jobs[1..], now);
      ExecAppend(s, steps, FailureRun(Exec(s, steps), jobs[1..], now));
    }
  }

  lemma SweepStates(s: System, now: int, waited: seq<JobId>, expired: seq<JobId>)
    ensures var s1 := Take(s, SweepScript(now));
            var s2 := Exec(s1, FailureRun(s1, waited, now));
            Exec(s, SweepSteps(s, now, waited, expired)) == Exec(s2, FailureRun(s2, expired, now))
  {
    var s1 := Take(s, SweepScript(now));
    var s2 := Exec(s1, FailureRun(s1, waited, now));
    ExecOne(s, SweepScript(now));
    ExecAppend(s, [SweepScript(now)], FailureRun(s1, waited, now));
    ExecAppend(s, [SweepScript(now)] + FailureRun(s1, waited, now), FailureRun(s2, expired, now));
  }

  lemma NoLeaseRanOut(s: System, s': System, now: int, expired: seq<JobId>)
    requires Progress(s, s', expired)
    requires forall id :: id in expired <==> LeaseRanOut(s.db, id, now)
    ensures forall id :: !LeaseRanOut(s'.db, id, now)
  {
    forall id | id in s'.db
      ensures !LeaseRanOut(s'.db, id, now)
    {
      assert id in s.db;
      if id !in expired {
        assert !LeaseRanOut(s.db, id, now);
      }
    }
  }

  lemma NoneOverdue(s: System, s': System, now: int, jobs: seq<JobId>, more: seq<JobId>)
    requires exists mid :: Progress(Take(s, SweepScript(now)), mid, jobs) && Progress(mid, s', more)
    ensures forall w :: A.In(w, s'.slots.waiting) ==> now < w.Deadline()
  {
    forall w | A.In(w, s'.slots.waiting)
      ensures now < w.Deadline()
    {
      A.SweepDeadline(s.slots, now, w);
    }
  }

  lemma SweepOutcome(s: System, now: int, waited: seq<JobId>, expired: seq<JobId>)
    ensures var s1 := Take(s, SweepScript(now));
            var s2 := Exec(s1, FailureRun(s1, waited, now));
            Swept(s, Exec(s2, FailureRun(s2, expired, now)), now,
                  Accepted(s1, waited, now) + Accepted(s2, expired, now))
  {
    var s1 := Take(s, SweepScript(now));
    var s2 := Exec(s1, FailureRun(s1, waited, now));
    var s3 := Exec(s2, FailureRun(s2, expired, now));
    FailureProgress(s1, waited, now);
    FailureProgress(s2, expired, now);
    FailureCount(s1, waited, now);
    FailureCount(s2, expired, now);
    NoneOverdue(s, s3, now, waited, expired);
  }

  /** In a reachable system at most two leases can have run out. */
  lemma FewRanOut(s: System, now: int, waited: seq<JobId>)
    requires Protocol.Inv(s)
    ensures |RanOut(AfterWaiting(s, now, waited).db, now)| <= 2
  {
    var s2 := AfterWaiting(s, now, waited);
    AfterWaitingInv(s, now, waited);
    InvSafety(s2);
    SubsetSize(RanOut(s2.db, now), Engaged(s2.db));
  }

  /** Below the limit of its query, and so in every reachable system, the sweep leaves no lease that has run out. */
  lemma SweepClears(s: System, now: int, waited: seq<JobId>, expired: seq<JobId>)
    requires var db := AfterWaiting(s, now, waited).db;
             FirstBy(expired, RanOut(db, now), SWEEP_LIMIT, ExpiryIn(JobsIn(db)))
    requires Protocol.Inv(s) || |expired| < SWEEP_LIMIT
    ensures forall id :: !LeaseRanOut(Exec(s, SweepSteps(s, now, waited, expired)).db, id, now)
  {
    var s2 := AfterWaiting(s, now, waited);
    if Protocol.Inv(s) {
      FewRanOut(s, now, waited);
    }
    ShortListIsAll(expired, RanOut(s2.db, now), SWEEP_LIMIT, ExpiryIn(JobsIn(s2.db)));
    SweepStates(s, now, waited, expired);
    FailureProgress(s2, expired, now);
    NoLeaseRanOut(s2, Exec(s2, FailureRun(s2, expired, now)), now, expired);
  }
}
