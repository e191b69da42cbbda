/**
 The procedures of `endpoints/ingestion.py` that touch both stores, run without
 interruption and proved to be runs of `Protocol`, and what interruptions do to them.
 */
module Handlers {
  import opened Common
  import opened JobLifecycle
  import opened JobTable
  import opened Protocol
  import opened Worker
  import A = Admission
  import R = RedisAdmission

  // ---------------------------------------------------------------- admission

  /** The handler's decision: where the job already stands, or else what `_ADMIT` answers. */
  function Answer(slots: A.Slots, job: JobId, consent: bool, now: int): A.Reply {
    var known := A.State(slots, job);
    if known.Some? then known.value else A.Admit(slots, job, consent, now).1
  }

  /** The slots after asking. */
  function Asked(slots: A.Slots, job: JobId, consent: bool, now: int): A.Slots {
    if A.State(slots, job).Some? then slots else A.Admit(slots, job, consent, now).0
  }

  function AdmissionSteps(s: System, job: JobId, consent: bool, now: int): seq<Step> {
    [StateScript(job)]
    + (if A.State(s.slots, job).None? then [AdmitScript(job, consent, now)] else [])
    + (if Answer(s.slots, job, consent, now) == A.Active && job in s.db then [CommitAdmission(job)] else [])
  }

  /**
   What the handler is told: a job that already stands somewhere hears where, and nothing
   changes; any other is admitted, queued or refused.
   */
  lemma AnswerExactly(slots: A.Slots, job: JobId, consent: bool, now: int)
    requires A.Shape(slots)
    ensures job in slots.active ==> Answer(slots, job, consent, now) == A.Active
    ensures job in A.Jobs(slots.waiting) ==>
              Answer(slots, job, consent, now)
              == A.Waiting(A.Rank(slots.waiting, job) + 1, A.Find(slots.waiting, job).Deadline())
    ensures job in A.Members(slots) ==> Asked(slots, job, consent, now) == slots
    ensures job !in A.Members(slots) ==>
              Answer(slots, job, consent, now)
              == if A.HasAnother(slots, job.owner) then A.UserBusy
                 else if |slots.active| < 2 then A.Active
                 else if !consent then A.ConsentRequired
                 else if A.Size(slots.waiting) >= 3 then A.QueueFull
                 else A.Waiting(A.Size(slots.waiting) + 1, now + 180)
    ensures job !in A.Members(slots) ==>
              job in A.Members(Asked(slots, job, consent, now))
              <==> Answer(slots, job, consent, now).Active? || Answer(slots, job, consent, now).Waiting?
  {
    A.StateExactly(slots, job);
    A.AdmitExactly(slots, job, consent, now);
    A.AdmitCases(slots, job, consent, now);
    A.InConcatJobs(slots.waiting, A.Waiter(job, slots.ticket + 1, now, false));
  }

  /** The Redis half of `_admit_pending_job`. */
  method AskRedis(store: R.Store, job: JobId, user: UserId, consent: bool, now: int) returns (reply: A.Reply)
    requires store.Valid() && user == job.owner
    modifies store
    ensures store.Valid() && store.View() == Asked(old(store.View()), job, consent, now)
    ensures reply == Answer(old(store.View()), job, consent, now)
  {
    var current := store.State(job);
    if current.Some? {
      return current.value;
    }
    reply := store.Admit(job, user, consent, now);
  }

  /** `_admit_pending_job`; None is the exception for an ACTIVE decision on a job without a row. */
  method AdmitPendingJob(store: R.Store, table: Table, job: JobId, user: UserId, consent: bool, now: int,
                         ghost s: System)
    returns (decision: Option<A.Reply>)
    requires At(store, table, s) && user == job.owner
    modifies store, table
    ensures At(store, table, Exec(s, AdmissionSteps(s, job, consent, now)))
    ensures decision == if Answer(s.slots, job, consent, now) == A.Active && job !in s.db then None
                        else Some(Answer(s.slots, job, consent, now))
  {
    ghost var s' := Exec(s, AdmissionSteps(s, job, consent, now));
    AdmissionEffect(s, job, consent, now);
    OwnersStay(s.db, job, EnsureOutbox);
    var reply := AskRedis(store, job, user, consent, now);
    if reply == A.Active {
      if job !in table.jobs {
        return None;
      }
      table.EnsureOutbox(job);
    }
    assert table.View() == s'.db;
    return Some(reply);
  }

  lemma AdmissionEffect(s: System, job: JobId, consent: bool, now: int)
    ensures var s' := Exec(s, AdmissionSteps(s, job, consent, now));
            && s'.slots == Asked(s.slots, job, consent, now)
            && s'.db == (if Answer(s.slots, job, consent, now) == A.Active && job in s.db
                         then Fire(s.db, job, EnsureOutbox) else s.db)
  {
    var known := A.State(s.slots, job);
    var s1 := Take(s, StateScript(job));
    ExecOne(s, StateScript(job));
    var ask := if known.None? then [AdmitScript(job, consent, now)] else [];
    ExecAppend(s, [StateScript(job)], ask);
    var s2 := Exec(s1, ask);
    if known.None? {
      ExecOne(s1, AdmitScript(job, consent, now));
    }
    if Answer(s.slots, job, consent, now) == A.Active && job in s.db {
      assert job in s2.admitted;
      ExecAppend(s, [StateScript(job)] + ask, [CommitAdmission(job)]);
      ExecOne(s2, CommitAdmission(job));
    } else {
      assert AdmissionSteps(s, job, consent, now) == [StateScript(job)] + ask;
    }
  }

  /** A decision of ACTIVE leaves the job in a slot with its first outbox row; any other leaves Postgres alone. */
  lemma AdmissionOutcome(s: System, job: JobId, consent: bool, now: int)
    ensures var s' := Exec(s, AdmissionSteps(s, job, consent, now));
            if Answer(s.slots, job, consent, now) == A.Active
            then job in s'.slots.active && (job in s.db ==> job in s'.db && 0 in s'.db[job].outbox)
            else s'.db == s.db
  {
    AdmissionEffect(s, job, consent, now);
    A.AdmitCases(s.slots, job, consent, now);
  }

  // ---------------------------------------------------------------- cancelling

  datatype CancelReply = Cancelled | NotFound | Rejected | Crashed

  function CancelAnswer(s: System, job: JobId, user: UserId, now: int): CancelReply {
    if job !in s.db || job.owner != user then NotFound
    else if !A.Cancel(s.slots, job).1 then Rejected
    else
      match Decide(s.db[job], Terminalize(CANCELLED, now))
      case Applied(_) => Cancelled
      case Refused => Rejected
      case Raised => Crashed
  }

  function CancelSteps(s: System, job: JobId, user: UserId, now: int): seq<Step> {
    if job !in s.db || job.owner != user then []
    else [CancelScript(job)] + if A.Cancel(s.slots, job).1 then [Mutate(job, Terminalize(CANCELLED, now))] else []
  }

  lemma CancelStates(s: System, job: JobId, user: UserId, now: int)
    requires job in s.db && job.owner == user
    ensures var s' := Exec(s, CancelSteps(s, job, user, now));
            && s'.slots == A.Cancel(s.slots, job).0
            && s'.db == (if A.Cancel(s.slots, job).1 then Fire(s.db, job, Terminalize(CANCELLED, now)) else s.db)
            && (OwnersMatch(s.db) ==> OwnersMatch(s'.db))
  {
    var s1 := Take(s, CancelScript(job));
    ExecOne(s, CancelScript(job));
    if A.Cancel(s.slots, job).1 {
      ExecAppend(s, [CancelScript(job)], [Mutate(job, Terminalize(CANCELLED, now))]);
      ExecOne(s1, Mutate(job, Terminalize(CANCELLED, now)));
    } else {
      assert CancelSteps(s, job, user, now) == [CancelScript(job)];
    }
  }

  /** `cancel_waiting_job` */
  method CancelWaitingJob(store: R.Store, table: Table, job: JobId, user: UserId, now: int, ghost s: System)
    returns (reply: CancelReply)
    requires At(store, table, s)
    modifies store, table
    ensures At(store, table, Exec(s, CancelSteps(s, job, user, now)))
    ensures reply == CancelAnswer(s, job, user, now)
  {
    assert job in s.db ==> s.db[job].job.owner == job.owner;
    if job !in table.jobs || table.jobs[job].owner != user {
      return NotFound;
    }
    CancelStates(s, job, user, now);
    ghost var s' := Exec(s, CancelSteps(s, job, user, now));
    var removed := store.Cancel(job, user);
    assert store.View() == s'.slots;
    if !removed {
      assert table.View() == s'.db;
      return Rejected;
    }
    var answer := table.TerminalizeJob(job, CANCELLED, now);
    assert table.View() == s'.db;
    return if answer == Done(true) then Cancelled else if answer.Thrown? then Crashed else Rejected;
  }

  /** Uninterrupted, in a reachable system, it never crashes and cancels exactly the user's own waiting job. */
  lemma CancelOutcome(s: System, job: JobId, user: UserId, now: int)
    requires Protocol.Inv(s)
    ensures CancelAnswer(s, job, user, now) != Crashed
    ensures CancelAnswer(s, job, user, now) == Cancelled <==>
            && job in s.db && job.owner == user && job in A.Jobs(s.slots.waiting) && !s.db[job].job.Terminal()
  {
    if job in s.db && job.owner == user && A.Cancel(s.slots, job).1 {
      CancelledAtOnce(s, job, now);
    }
  }

  lemma CancelledAtOnce(s: System, job: JobId, now: int)
    requires Protocol.Inv(s) && job in s.db && A.Cancel(s.slots, job).1
    ensures !Decide(s.db[job], Terminalize(CANCELLED, now)).Raised?
    ensures Decide(s.db[job], Terminalize(CANCELLED, now)).Applied? <==> !s.db[job].job.Terminal()
  {
    CancellationHolds(s, [], job, now);
    assert Exec(Take(s, CancelScript(job)), []) == Take(s, CancelScript(job));
  }

  lemma CancelledRow(e: Entry, now: int)
    requires Decide(e, Terminalize(CANCELLED, now)).Applied?
    ensures After(e, Terminalize(CANCELLED, now)).job.status == CANCELLED
  {
  }

  /** And then the job is CANCELLED and out of the queue. */
  lemma CancelEffect(s: System, job: JobId, user: UserId, now: int)
    requires Protocol.Inv(s) && CancelAnswer(s, job, user, now) == Cancelled
    ensures var s' := Exec(s, CancelSteps(s, job, user, now));
            && job in s'.db && s'.db[job].job.status == CANCELLED && job !in A.Members(s'.slots)
  {
    CancelledLeaves(s, job);
    CancelStates(s, job, user, now);
    CancelledRow(s.db[job], now);
    assert Take(s, CancelScript(job)).slots == A.Cancel(s.slots, job).0;
  }

  // ---------------------------------------------------------------- extending

  datatype ExtendReply = Reported(position: nat, deadline: int) | Missing | Declined

  /** What the handler answers, with `s` at its first script and `t` at its second. */
  function ExtendAnswer(s: System, t: System, job: JobId, user: UserId, now: int): ExtendReply {
    if job !in s.db || job.owner != user then Missing else
    var current := A.State(t.slots, job);
    if A.Extend(s.slots, job, now).1 && current.Some? && current.value.Waiting?
    then Reported(current.value.position, current.value.deadline)
    else Declined
  }

  function ExtendSteps(s: System, job: JobId, user: UserId, now: int): seq<Step> {
    if job !in s.db || job.owner != user then [] else [ExtendScript(job, now), StateScript(job)]
  }

  lemma ExtendStates(s: System, job: JobId, user: UserId, now: int)
    requires job in s.db && job.owner == user
    ensures var s' := Exec(s, ExtendSteps(s, job, user, now));
            s'.slots == A.Extend(s.slots, job, now).0 && s'.db == s.db
  {
    ExecAppend(s, [ExtendScript(job, now)], [StateScript(job)]);
    ExecOne(s, ExtendScript(job, now));
    ExecOne(Take(s, ExtendScript(job, now)), StateScript(job));
  }

  /** `extend_waiting_job` */
  method ExtendWaitingJob(store: R.Store, table: Table, job: JobId, user: UserId, now: int, ghost s: System)
    returns (reply: ExtendReply)
    requires At(store, table, s)
    modifies store
    ensures At(store, table, Exec(s, ExtendSteps(s, job, user, now)))
    ensures reply == ExtendAnswer(s, Take(s, ExtendScript(job, now)), job, user, now)
  {
    assert job in s.db ==> s.db[job].job.owner == job.owner;
    if job !in table.jobs || table.jobs[job].owner != user {
      return Missing;
    }
    ExtendStates(s, job, user, now);
    ghost var slots := A.Extend(s.slots, job, now).0;
    assert Take(s, ExtendScript(job, now)).slots == slots;
    var extended := store.Extend(job, now);
    assert store.View() == slots;
    var current := store.State(job);
    if !extended || current.None? || !current.value.Waiting? {
      return Declined;
    }
    return Reported(current.value.position, current.value.deadline);
  }

  lemma WaitingState(slots: A.Slots, job: JobId)
    requires A.Shape(slots)
    ensures var state := A.State(slots, job);
            state.Some? && state.value.Waiting? <==> job in A.Jobs(slots.waiting)
  {
  }

  lemma ExtendedState(slots: A.Slots, job: JobId, now: int)
    requires A.Shape(slots) && A.Extend(slots, job, now).1
    ensures job in A.Jobs(slots.waiting) && job in A.Jobs(A.Extend(slots, job, now).0.waiting)
    ensures A.State(A.Extend(slots, job, now).0, job)
            == Some(A.Waiting(A.Rank(slots.waiting, job) + 1, A.Find(slots.waiting, job).Deadline() + A.WAIT_SECONDS))
  {
    A.ProlongedPlace(slots.waiting, job);
  }

  /** Uninterrupted, it reports exactly the granted extensions, with the place kept and 180 s more. */
  lemma ExtensionReported(s: System, job: JobId, user: UserId, now: int)
    requires A.Shape(s.slots) && job in s.db && job.owner == user
    ensures var reply := ExtendAnswer(s, Take(s, ExtendScript(job, now)), job, user, now);
            && (reply.Reported? <==> A.Extend(s.slots, job, now).1)
            && (reply.Reported? ==>
                  && job in A.Jobs(s.slots.waiting)
                  && reply.position == A.Rank(s.slots.waiting, job) + 1
                  && reply.deadline == A.Find(s.slots.waiting, job).Deadline() + A.WAIT_SECONDS)
  {
    assert Take(s, ExtendScript(job, now)).slots == A.Extend(s.slots, job, now).0;
    if A.Extend(s.slots, job, now).1 {
      ExtendedState(s.slots, job, now);
    }
  }

  /**
   Any steps may come between the two scripts. A granted extension is reported exactly if the
   job still waits at the second one, and that is so unless a cancellation of it, a sweep or
   a completion came in between.
   */
  lemma InterruptedExtension(s: System, steps: seq<Step>, job: JobId, user: UserId, now: int)
    requires Protocol.Inv(s) && job in s.db && job.owner == user && A.Extend(s.slots, job, now).1
    ensures var t := Exec(Take(s, ExtendScript(job, now)), steps);
            && (ExtendAnswer(s, t, job, user, now).Reported? <==> job in A.Jobs(t.slots.waiting))
            && ((forall step :: step in steps ==> !TakesAway(step, job)) ==> job in A.Jobs(t.slots.waiting))
  {
    var s1 := Take(s, ExtendScript(job, now));
    StepInv(s, ExtendScript(job, now));
    RunInv(s1, steps);
    WaitingState(Exec(s1, steps).slots, job);
    if forall step :: step in steps ==> !TakesAway(step, job) {
      ExtendedState(s.slots, job, now);
      WaitsOn(s1, steps, job);
    }
  }

  /** These steps can take a job out of the queue. */
  predicate TakesAway(step: Step, job: JobId) {
    step.SweepScript? || step.CompleteScript? || step == CancelScript(job)
  }

  lemma {:induction false} WaitsOn(s: System, steps: seq<Step>, job: JobId)
    requires job in A.Jobs(s.slots.waiting) && forall step :: step in steps ==> !TakesAway(step, job)
    ensures job in A.Jobs(Exec(s, steps).slots.waiting)
    decreases |steps|
  {
    if steps != [] {
      WaitsOnStep(s, steps[0], job);
      WaitsOn(Take(s, steps[0]), steps[1..], job);
    }
  }

  lemma WaitsOnStep(s: System, step: Step, job: JobId)
    requires job in A.Jobs(s.slots.waiting) && !TakesAway(step, job)
    ensures job in A.Jobs(Take(s, step).slots.waiting)
  {
    match step
    case AdmitScript(j, consent, now) => A.JoinKeeps(s.slots.waiting, A.Waiter(j, s.slots.ticket + 1, now, false), job);
    case CancelScript(j) => A.OthersStay(s.slots.waiting, j, job);
    case ExtendScript(j, now) => A.ProlongKeeps(s.slots.waiting, j);
    case _ =>
  }

  lemma SlotPassesOn(s: System, a: JobId, b: JobId, c: JobId)
    requires a != b && b != c && c != a
    requires s.slots == A.Slots({a, b}, A.Line(A.Waiter(c, 1, 0, true), A.Nobody), 1)
    requires a in s.db && s.db[a].job.status == PENDING
    ensures var t := Exec(s, [Mutate(a, Terminalize(FAILED, 1)), CompleteScript(a)]);
            t.slots == A.Slots({b, c}, A.Nobody, 1)
  {
    var s1 := Take(s, Mutate(a, Terminalize(FAILED, 1)));
    ExecAppend(s, [Mutate(a, Terminalize(FAILED, 1))], [CompleteScript(a)]);
    ExecOne(s, Mutate(a, Terminalize(FAILED, 1)));
    ExecOne(s1, CompleteScript(a));
    assert s1.db[a].job.Terminal();
  }

  /** So it does happen: the waiting third game is extended, and promoted before the handler looks again. */
  lemma ExtensionRace(a: JobId, b: JobId, c: JobId)
    requires a.owner != b.owner && b.owner != c.owner && c.owner != a.owner
    ensures var s := Exec(START, ThreeSubmitted(a, b, c));
            var t := Exec(Take(s, ExtendScript(c, 0)), [Mutate(a, Terminalize(FAILED, 1)), CompleteScript(a)]);
            A.Extend(s.slots, c, 0).1 && c in t.slots.active && ExtendAnswer(s, t, c, c.owner, 0) == Declined
  {
    ThirdWaits(a, b, c);
    SlotPassesOn(Take(Exec(START, ThreeSubmitted(a, b, c)), ExtendScript(c, 0)), a, b, c);
  }
}
