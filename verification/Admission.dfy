/**
 The bounded queue the Redis scripts of `queue_admission.py` implement: two active slots,
 three waiting places in order of arrival, one job per user. Handlers and worker always
 pass the job's own owner as the user argument.
 */
module Admission {
  import opened Common

  const ACTIVE_LIMIT := 2
  const WAITING_LIMIT := 3
  const WAIT_SECONDS := 180

  /** A waiting job; its ticket is the score drawn from the sequence key. */
  datatype Waiter = Waiter(job: JobId, ticket: nat, admittedAt: int, extended: bool) {
    function Deadline(): int {
      admittedAt + WAIT_SECONDS + if extended then WAIT_SECONDS else 0
    }
  }

  /** The waiting jobs, first to be served first. */
  datatype Queue = Nobody | Line(first: Waiter, rest: Queue)

  datatype Slots = Slots(active: set<JobId>, waiting: Queue, ticket: nat)

  const EMPTY := Slots({}, Nobody, 0)

  datatype Reply =
    | Active
    | Waiting(position: nat, deadline: int)
    | ConsentRequired
    | UserBusy
    | QueueFull

  function Size(q: Queue): nat {
    if q.Nobody? then 0 else 1 + Size(q.rest)
  }

  function Jobs(q: Queue): set<JobId> {
    if q.Nobody? then {} else {q.first.job} + Jobs(q.rest)
  }

  predicate In(w: Waiter, q: Queue) {
    q.Line? && (q.first == w || In(w, q.rest))
  }

  function Concat(q: Queue, r: Queue): Queue {
    if q.Nobody? then r else Line(q.first, Concat(q.rest, r))
  }

  function Keep(q: Queue, p: Waiter -> bool): Queue {
    if q.Nobody? then Nobody
    else if p(q.first) then Line(q.first, Keep(q.rest, p))
    else Keep(q.rest, p)
  }

  function Prolong(q: Queue, job: JobId): Queue {
    if q.Nobody? then Nobody
    else if q.first.job == job then Line(q.first.(extended := true), q.rest)
    else Line(q.first, Prolong(q.rest, job))
  }

  /** How many stand before the job. */
  function Rank(q: Queue, job: JobId): nat
    requires job in Jobs(q)
  {
    if q.first.job == job then 0 else 1 + Rank(q.rest, job)
  }

  function Find(q: Queue, job: JobId): (w: Waiter)
    requires job in Jobs(q)
    ensures w.job == job && In(w, q)
  {
    if q.first.job == job then q.first else Find(q.rest, job)
  }

  function Other(job: JobId): Waiter -> bool {
    (w: Waiter) => w.job != job
  }

  function Unexpired(now: int): Waiter -> bool {
    (w: Waiter) => now < w.Deadline()
  }

  function Expired(now: int): Waiter -> bool {
    (w: Waiter) => now >= w.Deadline()
  }

  function Members(s: Slots): set<JobId> {
    s.active + Jobs(s.waiting)
  }

  predicate Busy(s: Slots, user: UserId) {
    exists j :: j in Members(s) && j.owner == user
  }

  function Activate(s: Slots, job: JobId): Slots {
    s.(active := s.active + {job})
  }

  /** Queue up behind everyone else with the next ticket. */
  function Join(s: Slots, job: JobId, now: int): Slots {
    s.(waiting := Concat(s.waiting, Line(Waiter(job, s.ticket + 1, now, false), Nobody)), ticket := s.ticket + 1)
  }

  function Admit(s: Slots, job: JobId, consent: bool, now: int): (Slots, Reply) {
    if Busy(s, job.owner) then (s, UserBusy)
    else if |s.active| < ACTIVE_LIMIT then (Activate(s, job), Active)
    else if !consent then (s, ConsentRequired)
    else if Size(s.waiting) >= WAITING_LIMIT then (s, QueueFull)
    else (Join(s, job, now), Waiting(Size(s.waiting) + 1, now + WAIT_SECONDS))
  }

  function State(s: Slots, job: JobId): Option<Reply> {
    if job in s.active then Some(Active)
    else if job !in Jobs(s.waiting) then None
    else Some(Waiting(Rank(s.waiting, job) + 1, Find(s.waiting, job).Deadline()))
  }

  function Cancel(s: Slots, job: JobId): (Slots, bool) {
    (s.(waiting := Keep(s.waiting, Other(job))), job in Jobs(s.waiting))
  }

  function Extend(s: Slots, job: JobId, now: int): (Slots, bool) {
    if job !in Jobs(s.waiting) then (s, false) else
    var w := Find(s.waiting, job);
    if w.extended || now > w.Deadline() then (s, false)
    else (s.(waiting := Prolong(s.waiting, job)), true)
  }

  /** Exactly the waiters whose deadline is at or before now leave, in order. */
  function Sweep(s: Slots, now: int): (Slots, Queue) {
    (s.(waiting := Keep(s.waiting, Unexpired(now))), Keep(s.waiting, Expired(now)))
  }

  /** Free an active slot; the earliest waiter takes it over. */
  function Complete(s: Slots, job: JobId): (Slots, Option<Waiter>) {
    if job !in s.active then (s, None)
    else if s.waiting.Nobody? then (s.(active := s.active - {job}), None)
    else
      (s.(active := s.active - {job} + {s.waiting.first.job}, waiting := s.waiting.rest), Some(s.waiting.first))
  }

  datatype Op =
    | AdmitOp(job: JobId, consent: bool, now: int)
    | CancelOp(job: JobId)
    | ExtendOp(job: JobId, now: int)
    | SweepOp(now: int)
    | CompleteOp(job: JobId)

  function Apply(s: Slots, op: Op): Slots {
    match op
    case AdmitOp(job, consent, now) => Admit(s, job, consent, now).0
    case CancelOp(job) => Cancel(s, job).0
    case ExtendOp(job, now) => Extend(s, job, now).0
    case SweepOp(now) => Sweep(s, now).0
    case CompleteOp(job) => Complete(s, job).0
  }

  function Run(s: Slots, ops: seq<Op>): Slots
    decreases |ops|
  {
    if ops == [] then s else Run(Apply(s, ops[0]), ops[1..])
  }

  // ---------------------------------------------------------------- invariant

  /** Tickets rise along the queue, from above `low` up to `high`, and no job waits twice. */
  predicate Ordered(q: Queue, low: int, high: int)
    decreases q
  {
    q.Nobody?
    || (low < q.first.ticket <= high && q.first.job !in Jobs(q.rest) && Ordered(q.rest, q.first.ticket, high))
  }

  ghost predicate OneJobPerUser(jobs: set<JobId>) {
    forall j, k :: j in jobs && k in jobs && j.owner == k.owner ==> j == k
  }

  /** The limits and the order of the queue. */
  ghost predicate Shape(s: Slots) {
    && |s.active| <= ACTIVE_LIMIT
    && Size(s.waiting) <= WAITING_LIMIT
    && (s.waiting.Line? ==> |s.active| == ACTIVE_LIMIT)
    && s.active !! Jobs(s.waiting)
    && Ordered(s.waiting, -1, s.ticket)
  }

  ghost predicate Inv(s: Slots) {
    Shape(s) && OneJobPerUser(Members(s))
  }

  lemma {:induction false} OrderedBelow(q: Queue, low: int, high: int, low': int, high': int)
    requires Ordered(q, low, high) && low' <= low && high <= high'
    ensures Ordered(q, low', high')
    decreases q
  {
    if q.Line? {
      OrderedBelow(q.rest, q.first.ticket, high, q.first.ticket, high');
    }
  }

  lemma {:induction false} KeepOrdered(q: Queue, p: Waiter -> bool, low: int, high: int)
    requires Ordered(q, low, high)
    ensures Size(Keep(q, p)) <= Size(q) && Jobs(Keep(q, p)) <= Jobs(q) && Ordered(Keep(q, p), low, high)
    decreases q
  {
    if q.Line? {
      KeepOrdered(q.rest, p, q.first.ticket, high);
      if !p(q.first) {
        OrderedBelow(Keep(q.rest, p), q.first.ticket, high, low, high);
      }
    }
  }

  lemma {:induction false} NoLongerQueued(q: Queue, job: JobId)
    ensures job !in Jobs(Keep(q, Other(job)))
  {
    if q.Line? {
      NoLongerQueued(q.rest, job);
    }
  }

  lemma {:induction false} AppendOrdered(q: Queue, w: Waiter, low: int, high: int)
    requires Ordered(q, low, high) && w.job !in Jobs(q) && low <= high < w.ticket
    ensures Ordered(Concat(q, Line(w, Nobody)), low, w.ticket)
    ensures Jobs(Concat(q, Line(w, Nobody))) == Jobs(q) + {w.job}
    ensures Size(Concat(q, Line(w, Nobody))) == Size(q) + 1
    decreases q
  {
    if q.Line? {
      AppendOrdered(q.rest, w, q.first.ticket, high);
    }
  }

  lemma {:induction false} ProlongOrdered(q: Queue, job: JobId, low: int, high: int)
    requires Ordered(q, low, high)
    ensures Size(Prolong(q, job)) == Size(q) && Jobs(Prolong(q, job)) == Jobs(q) && Ordered(Prolong(q, job), low, high)
    decreases q
  {
    if q.Line? {
      ProlongOrdered(q.rest, job, q.first.ticket, high);
    }
  }

  lemma {:induction false} ProlongKeeps(q: Queue, job: JobId)
    ensures Jobs(Prolong(q, job)) == Jobs(q)
  {
    if q.Line? {
      ProlongKeeps(q.rest, job);
    }
  }

  lemma {:induction false} JoinKeeps(q: Queue, w: Waiter, job: JobId)
    ensures job in Jobs(q) ==> job in Jobs(Concat(q, Line(w, Nobody)))
  {
    if q.Line? {
      JoinKeeps(q.rest, w, job);
    }
  }

  lemma {:induction false} OthersStay(q: Queue, gone: JobId, job: JobId)
    ensures job in Jobs(q) && job != gone ==> job in Jobs(Keep(q, Other(gone)))
  {
    if q.Line? {
      OthersStay(q.rest, gone, job);
    }
  }

  /** An extension moves the deadline of its own job and nobody's place. */
  lemma {:induction false} ProlongedPlace(q: Queue, job: JobId)
    requires job in Jobs(q) && !Find(q, job).extended
    ensures job in Jobs(Prolong(q, job)) && Rank(Prolong(q, job), job) == Rank(q, job)
    ensures Find(Prolong(q, job), job).Deadline() == Find(q, job).Deadline() + WAIT_SECONDS
  {
    if q.first.job != job {
      ProlongedPlace(q.rest, job);
    }
  }

  lemma KeptShape(s: Slots, p: Waiter -> bool)
    requires Shape(s)
    ensures Shape(s.(waiting := Keep(s.waiting, p)))
    ensures Members(s.(waiting := Keep(s.waiting, p))) <= Members(s)
  {
    KeepOrdered(s.waiting, p, -1, s.ticket);
  }

  lemma ProlongedShape(s: Slots, job: JobId)
    requires Shape(s)
    ensures Shape(s.(waiting := Prolong(s.waiting, job)))
    ensures Members(s.(waiting := Prolong(s.waiting, job))) == Members(s)
  {
    ProlongOrdered(s.waiting, job, -1, s.ticket);
  }

  lemma JoinShape(s: Slots, job: JobId, now: int)
    requires Shape(s) && |s.active| == ACTIVE_LIMIT && Size(s.waiting) < WAITING_LIMIT && job !in Members(s)
    ensures Shape(Join(s, job, now)) && Members(Join(s, job, now)) == Members(s) + {job}
  {
    AppendOrdered(s.waiting, Waiter(job, s.ticket + 1, now, false), -1, s.ticket);
    LongerQueue(s, job, Join(s, job, now).waiting);
  }

  lemma LongerQueue(s: Slots, job: JobId, q: Queue)
    requires Shape(s) && |s.active| == ACTIVE_LIMIT && Size(q) <= WAITING_LIMIT && job !in Members(s)
    requires Jobs(q) == Jobs(s.waiting) + {job} && Ordered(q, -1, s.ticket + 1)
    ensures Shape(Slots(s.active, q, s.ticket + 1)) && Members(Slots(s.active, q, s.ticket + 1)) == Members(s) + {job}
  {
    assert Members(Slots(s.active, q, s.ticket + 1)) == Members(s) + {job};
  }

  lemma ActivateShape(s: Slots, job: JobId)
    requires Shape(s) && |s.active| < ACTIVE_LIMIT && job !in Members(s)
    ensures Shape(Activate(s, job)) && Members(Activate(s, job)) == Members(s) + {job}
  {
    assert Members(Activate(s, job)) == Members(s) + {job};
  }

  lemma SwapSize(active: set<JobId>, gone: JobId, next: JobId)
    requires gone in active && next !in active
    ensures |active - {gone}| == |active| - 1
    ensures |active - {gone} + {next}| == |active|
  {
  }

  lemma FreeShape(s: Slots, job: JobId)
    requires Shape(s) && job in s.active && s.waiting.Nobody?
    ensures var s' := s.(active := s.active - {job});
            Shape(s') && Members(s') == Members(s) - {job}
  {
    assert |s.active - {job}| <= |s.active|;
    assert s.active - {job} + {} == s.active + {} - {job};
  }

  lemma PromoteShape(s: Slots, job: JobId)
    requires Shape(s) && job in s.active && s.waiting.Line?
    ensures var s' := s.(active := s.active - {job} + {s.waiting.first.job}, waiting := s.waiting.rest);
            Shape(s') && Members(s') == Members(s) - {job}
  {
    var s' := s.(active := s.active - {job} + {s.waiting.first.job}, waiting := s.waiting.rest);
    SwapSize(s.active, job, s.waiting.first.job);
    OrderedBelow(s.waiting.rest, s.waiting.first.ticket, s.ticket, -1, s.ticket);
    assert Members(s') == Members(s) - {job};
  }

  lemma CompleteShape(s: Slots, job: JobId)
    requires Shape(s)
    ensures Shape(Complete(s, job).0)
    ensures Members(Complete(s, job).0) == if job in s.active then Members(s) - {job} else Members(s)
  {
    if job in s.active {
      if s.waiting.Line? {
        PromoteShape(s, job);
      } else {
        FreeShape(s, job);
      }
    }
  }

  /** Whom an admission lets in: a job of an idle user, into a free slot or a free place. */
  predicate Fits(s: Slots, job: JobId, consent: bool) {
    && job !in Members(s)
    && (forall j :: j in Members(s) ==> j.owner != job.owner)
    && (|s.active| < ACTIVE_LIMIT || (consent && Size(s.waiting) < WAITING_LIMIT))
  }

  /** An admission changes nothing, fills a slot, or joins the queue, and its reply says which. */
  lemma AdmitCases(s: Slots, job: JobId, consent: bool, now: int)
    ensures var (s', reply) := Admit(s, job, consent, now);
            if !Fits(s, job, consent) then s' == s && !reply.Active? && !reply.Waiting?
            else if |s.active| < ACTIVE_LIMIT then s' == Activate(s, job) && reply == Active
            else s' == Join(s, job, now) && reply == Waiting(Size(s.waiting) + 1, now + WAIT_SECONDS)
  {
  }

  lemma AdmitShape(s: Slots, job: JobId, consent: bool, now: int)
    requires Shape(s)
    ensures Shape(Admit(s, job, consent, now).0)
    ensures Members(Admit(s, job, consent, now).0) == if Fits(s, job, consent) then Members(s) + {job} else Members(s)
  {
    AdmitCases(s, job, consent, now);
    if Fits(s, job, consent) {
      if |s.active| < ACTIVE_LIMIT {
        ActivateShape(s, job);
      } else {
        JoinShape(s, job, now);
      }
    }
  }

  lemma NewMember(jobs: set<JobId>, job: JobId)
    requires OneJobPerUser(jobs) && forall j :: j in jobs ==> j.owner != job.owner
    ensures OneJobPerUser(jobs + {job})
  {
  }

  lemma FewerMembers(jobs: set<JobId>, some: set<JobId>)
    requires OneJobPerUser(jobs) && some <= jobs
    ensures OneJobPerUser(some)
  {
  }

  lemma StepShape(s: Slots, op: Op)
    requires Shape(s)
    ensures Shape(Apply(s, op))
  {
    match op
    case AdmitOp(job, consent, now) => AdmitShape(s, job, consent, now);
    case CancelOp(job) => KeptShape(s, Other(job));
    case ExtendOp(job, now) => ProlongedShape(s, job);
    case SweepOp(now) => KeptShape(s, Unexpired(now));
    case CompleteOp(job) => CompleteShape(s, job);
  }

  lemma StepMembers(s: Slots, op: Op)
    requires Shape(s)
    ensures Members(Apply(s, op)) <= Members(s) || (op.AdmitOp? && Fits(s, op.job, op.consent))
    ensures op.AdmitOp? ==> Members(Apply(s, op)) <= Members(s) + {op.job}
    ensures !op.CompleteOp? ==> s.active <= Apply(s, op).active
    ensures op.CompleteOp? ==> s.active - {op.job} <= Apply(s, op).active
  {
    match op
    case AdmitOp(job, consent, now) =>
      AdmitShape(s, job, consent, now);
      AdmitCases(s, job, consent, now);
    case CancelOp(job) => KeptShape(s, Other(job));
    case ExtendOp(job, now) => ProlongedShape(s, job);
    case SweepOp(now) => KeptShape(s, Unexpired(now));
    case CompleteOp(job) => CompleteShape(s, job);
  }

  lemma StepInv(s: Slots, op: Op)
    requires Inv(s)
    ensures Inv(Apply(s, op))
  {
    StepShape(s, op);
    StepMembers(s, op);
    if Members(Apply(s, op)) <= Members(s) {
      FewerMembers(Members(s), Members(Apply(s, op)));
    } else {
      NewMember(Members(s), op.job);
      FewerMembers(Members(s) + {op.job}, Members(Apply(s, op)));
    }
  }

  /** Every reachable queue obeys the limits, the order and one job per user. */
  lemma {:induction false} RunInv(s: Slots, ops: seq<Op>)
    requires Inv(s)
    ensures Inv(Run(s, ops))
    decreases |ops|
  {
    if ops != [] {
      StepInv(s, ops[0]);
      RunInv(Apply(s, ops[0]), ops[1..]);
    }
  }

  // ---------------------------------------------------------------- first come, first served

  predicate Holds(q: Queue, ticket: nat) {
    q.Line? && (q.first.ticket == ticket || Holds(q.rest, ticket))
  }

  /** How many waiters stand before the holder of the ticket. */
  function Ahead(q: Queue, ticket: nat): nat {
    if q.Nobody? || q.first.ticket == ticket then 0 else 1 + Ahead(q.rest, ticket)
  }

  /** How many waiters hold a smaller ticket. */
  function Earlier(q: Queue, ticket: nat): nat {
    if q.Nobody? then 0 else (if q.first.ticket < ticket then 1 else 0) + Earlier(q.rest, ticket)
  }

  lemma {:induction false} NobodyEarlier(q: Queue, low: int, high: int, ticket: nat)
    requires Ordered(q, low, high) && ticket <= low
    ensures Earlier(q, ticket) == 0 && !Holds(q, ticket)
    decreases q
  {
    if q.Line? {
      NobodyEarlier(q.rest, q.first.ticket, high, ticket);
    }
  }

  lemma {:induction false} PlaceByTicket(q: Queue, low: int, high: int, job: JobId)
    requires Ordered(q, low, high) && job in Jobs(q)
    ensures low < Find(q, job).ticket <= high && Rank(q, job) < Size(q)
    ensures Rank(q, job) == Earlier(q, Find(q, job).ticket) == Ahead(q, Find(q, job).ticket)
    ensures Holds(q, Find(q, job).ticket)
    decreases q
  {
    if q.first.job == job {
      NobodyEarlier(q.rest, q.first.ticket, high, q.first.ticket);
    } else {
      PlaceByTicket(q.rest, q.first.ticket, high, job);
    }
  }

  lemma WaitOrTwice(w: Waiter)
    ensures w.Deadline() == w.admittedAt + 180 || w.Deadline() == w.admittedAt + 360
  {
  }

  /**
   The reported position is one plus the number of waiters with smaller tickets, and lies
   in 1..3; the reported deadline is 180 or 360 seconds after admission.
   */
  lemma ReportedPosition(s: Slots, job: JobId)
    requires Shape(s) && job in Jobs(s.waiting)
    ensures var w := Find(s.waiting, job);
            && State(s, job) == Some(Waiting(Earlier(s.waiting, w.ticket) + 1, w.Deadline()))
            && 1 <= Earlier(s.waiting, w.ticket) + 1 <= WAITING_LIMIT
            && (w.Deadline() == w.admittedAt + 180 || w.Deadline() == w.admittedAt + 360)
  {
    PlaceByTicket(s.waiting, -1, s.ticket, job);
    WaitOrTwice(Find(s.waiting, job));
  }

  /** Removing waiters never moves a remaining one back. */
  lemma {:induction false} KeepAhead(q: Queue, p: Waiter -> bool, low: int, high: int, ticket: nat)
    requires Ordered(q, low, high) && Holds(Keep(q, p), ticket)
    ensures Ahead(Keep(q, p), ticket) <= Ahead(q, ticket)
    decreases q
  {
    if q.first.ticket != ticket {
      KeepAhead(q.rest, p, q.first.ticket, high, ticket);
    } else if !p(q.first) {
      KeepOrdered(q.rest, p, q.first.ticket, high);
      NobodyEarlier(Keep(q.rest, p), q.first.ticket, high, ticket);
      assert false;
    }
  }

  lemma {:induction false} AppendAhead(q: Queue, r: Queue, ticket: nat)
    requires Holds(q, ticket)
    ensures Ahead(Concat(q, r), ticket) == Ahead(q, ticket)
    decreases q
  {
    if q.first.ticket != ticket {
      AppendAhead(q.rest, r, ticket);
    }
  }

  lemma {:induction false} ProlongAhead(q: Queue, job: JobId, ticket: nat)
    ensures Ahead(Prolong(q, job), ticket) == Ahead(q, ticket)
    decreases q
  {
    if q.Line? {
      ProlongAhead(q.rest, job, ticket);
    }
  }

  /** The waiter a step moves into an active slot. */
  function Promoted(s: Slots, op: Op): Option<Waiter> {
    if op.CompleteOp? then Complete(s, op.job).1 else None
  }

  function Promotions(s: Slots, ops: seq<Op>): seq<nat>
    decreases |ops|
  {
    if ops == [] then [] else
    (if Promoted(s, ops[0]).Some? then [Promoted(s, ops[0]).value.ticket] else [])
    + Promotions(Apply(s, ops[0]), ops[1..])
  }

  lemma AdmitAhead(s: Slots, job: JobId, consent: bool, now: int, ticket: nat)
    requires Holds(s.waiting, ticket)
    ensures Ahead(Admit(s, job, consent, now).0.waiting, ticket) == Ahead(s.waiting, ticket)
  {
    AppendAhead(s.waiting, Line(Waiter(job, s.ticket + 1, now, false), Nobody), ticket);
  }

  lemma PromotionAhead(s: Slots, job: JobId, ticket: nat)
    requires Ordered(s.waiting, -1, s.ticket)
    requires Holds(s.waiting, ticket) && Holds(Complete(s, job).0.waiting, ticket)
    ensures Ahead(Complete(s, job).0.waiting, ticket) + (if Complete(s, job).1.Some? then 1 else 0)
            <= Ahead(s.waiting, ticket)
  {
    if Complete(s, job).1.Some? && s.waiting.first.ticket == ticket {
      NobodyEarlier(s.waiting.rest, s.waiting.first.ticket, s.ticket, ticket);
      assert false;
    }
  }

  /** In one step a remaining waiter moves forward by every promotion and never back. */
  lemma StepAhead(s: Slots, op: Op, ticket: nat)
    requires Ordered(s.waiting, -1, s.ticket)
    requires Holds(s.waiting, ticket) && Holds(Apply(s, op).waiting, ticket)
    ensures Ahead(Apply(s, op).waiting, ticket) + (if Promoted(s, op).Some? then 1 else 0)
            <= Ahead(s.waiting, ticket)
  {
    match op
    case AdmitOp(job, consent, now) => AdmitAhead(s, job, consent, now, ticket);
    case CancelOp(job) => KeepAhead(s.waiting, Other(job), -1, s.ticket, ticket);
    case ExtendOp(job, now) => ProlongAhead(s.waiting, job, ticket);
    case SweepOp(now) => KeepAhead(s.waiting, Unexpired(now), -1, s.ticket, ticket);
    case CompleteOp(job) => PromotionAhead(s, job, ticket);
  }

  /** The ticket waits in every state of the run. */
  predicate WaitsThroughout(s: Slots, ops: seq<Op>, ticket: nat)
    decreases |ops|
  {
    Holds(s.waiting, ticket) && (ops == [] || WaitsThroughout(Apply(s, ops[0]), ops[1..], ticket))
  }

  /**
   While a job waits its position never increases, and every promotion in between takes
   one waiter from before it: it is overtaken by nobody.
   */
  lemma {:induction false} NeverOvertaken(s: Slots, ops: seq<Op>, ticket: nat)
    requires Shape(s) && WaitsThroughout(s, ops, ticket)
    ensures Ahead(Run(s, ops).waiting, ticket) + |Promotions(s, ops)| <= Ahead(s.waiting, ticket)
    decreases |ops|
  {
    if ops != [] {
      StepAhead(s, ops[0], ticket);
      StepShape(s, ops[0]);
      NeverOvertaken(Apply(s, ops[0]), ops[1..], ticket);
    }
  }

  /** Everyone in the queue, now or later, came after this ticket. */
  predicate AllLater(s: Slots, ticket: nat) {
    ticket <= s.ticket && Ordered(s.waiting, ticket, s.ticket)
  }

  lemma AdmitLater(s: Slots, job: JobId, consent: bool, now: int, ticket: nat)
    requires AllLater(s, ticket)
    ensures AllLater(Admit(s, job, consent, now).0, ticket)
  {
    AdmitCases(s, job, consent, now);
    if Fits(s, job, consent) {
      AppendOrdered(s.waiting, Waiter(job, s.ticket + 1, now, false), ticket, s.ticket);
    }
  }

  lemma PromotionLater(s: Slots, job: JobId, ticket: nat)
    requires AllLater(s, ticket)
    ensures AllLater(Complete(s, job).0, ticket)
    ensures var promoted := Complete(s, job).1;
            promoted.Some? ==> ticket < promoted.value.ticket && AllLater(Complete(s, job).0, promoted.value.ticket)
  {
    if s.waiting.Line? {
      OrderedBelow(s.waiting.rest, s.waiting.first.ticket, s.ticket, ticket, s.ticket);
    }
  }

  lemma StepLater(s: Slots, op: Op, ticket: nat)
    requires AllLater(s, ticket)
    ensures AllLater(Apply(s, op), ticket)
    ensures Promoted(s, op).Some? ==> ticket < Promoted(s, op).value.ticket
    ensures Promoted(s, op).Some? ==> AllLater(Apply(s, op), Promoted(s, op).value.ticket)
  {
    match op
    case AdmitOp(job, consent, now) => AdmitLater(s, job, consent, now, ticket);
    case CancelOp(job) => KeepOrdered(s.waiting, Other(job), ticket, s.ticket);
    case ExtendOp(job, now) => ProlongOrdered(s.waiting, job, ticket, s.ticket);
    case SweepOp(now) => KeepOrdered(s.waiting, Unexpired(now), ticket, s.ticket);
    case CompleteOp(job) => PromotionLater(s, job, ticket);
  }

  /** Strictly increasing from above `low`. */
  predicate Rising(tickets: seq<nat>, low: int)
    decreases |tickets|
  {
    tickets == [] || (low < tickets[0] && Rising(tickets[1..], tickets[0]))
  }

  /** Promotions happen in order of arrival over every run. */
  lemma {:induction false} PromotionsInOrder(s: Slots, ops: seq<Op>, ticket: nat)
    requires AllLater(s, ticket)
    ensures Rising(Promotions(s, ops), ticket)
    decreases |ops|
  {
    if ops != [] {
      var s' := Apply(s, ops[0]);
      StepLater(s, ops[0], ticket);
      if Promoted(s, ops[0]).Some? {
        var t := Promoted(s, ops[0]).value.ticket;
        PromotionsInOrder(s', ops[1..], t);
        assert Promotions(s, ops) == [t] + Promotions(s', ops[1..]);
        assert Promotions(s, ops)[1..] == Promotions(s', ops[1..]);
      } else {
        PromotionsInOrder(s', ops[1..], ticket);
        assert Promotions(s, ops) == Promotions(s', ops[1..]);
      }
    }
  }

  // ---------------------------------------------------------------- deadlines

  lemma {:induction false} KeepExactly(q: Queue, p: Waiter -> bool, w: Waiter)
    ensures In(w, Keep(q, p)) <==> In(w, q) && p(w)
    decreases q
  {
    if q.Line? {
      KeepExactly(q.rest, p, w);
    }
  }

  lemma {:induction false} SweepSplits(q: Queue, now: int)
    ensures Size(Keep(q, Unexpired(now))) + Size(Keep(q, Expired(now))) == Size(q)
    decreases q
  {
    if q.Line? {
      SweepSplits(q.rest, now);
    }
  }

  /**
   A sweep splits the queue exactly by deadline, so nobody survives one 360 seconds after
   admission, or 180 seconds after it without an extension.
   */
  lemma SweepDeadline(s: Slots, now: int, w: Waiter)
    ensures In(w, Sweep(s, now).0.waiting) <==> In(w, s.waiting) && now < w.Deadline()
    ensures In(w, Sweep(s, now).1) <==> In(w, s.waiting) && now >= w.Deadline()
    ensures Size(Sweep(s, now).0.waiting) + Size(Sweep(s, now).1) == Size(s.waiting)
    ensures In(w, Sweep(s, now).0.waiting) ==>
              now < w.admittedAt + 360 && (!w.extended ==> now < w.admittedAt + 180)
  {
    KeepExactly(s.waiting, Unexpired(now), w);
    KeepExactly(s.waiting, Expired(now), w);
    SweepSplits(s.waiting, now);
  }

  lemma {:induction false} ProlongFinds(q: Queue, job: JobId, other: JobId)
    requires job in Jobs(q) && other in Jobs(q)
    ensures other in Jobs(Prolong(q, job))
    ensures Find(Prolong(q, job), other)
            == if other == job then Find(q, job).(extended := true) else Find(q, other)
    decreases q
  {
    if q.first.job != job && q.first.job != other {
      ProlongFinds(q.rest, job, other);
    } else if q.first.job != job {
      ProlongKeeps(q.rest, job);
    }
  }

  /** A granted extension moves its job's deadline by 180 seconds and no other, and is the last one granted. */
  lemma OneExtension(s: Slots, job: JobId, now: int, later: int, other: JobId)
    requires Extend(s, job, now).1 && other in Jobs(s.waiting)
    ensures var s' := Extend(s, job, now).0;
            && Jobs(s'.waiting) == Jobs(s.waiting)
            && Find(s'.waiting, other).Deadline()
               == Find(s.waiting, other).Deadline() + (if other == job then 180 else 0)
            && !Extend(s', job, later).1
  {
    ProlongKeeps(s.waiting, job);
    ProlongFinds(s.waiting, job, other);
    ProlongFinds(s.waiting, job, job);
  }

  // ---------------------------------------------------------------- each operation by what it answers and leaves

  /** Another job of the same user is active or waiting. */
  predicate HasAnother(s: Slots, user: UserId) {
    (exists j :: j in s.active && j.owner == user) || (exists j :: j in Jobs(s.waiting) && j.owner == user)
  }

  /** Which of the five answers an admission gives; only ACTIVE and WAITING let the job in. */
  lemma AdmitExactly(s: Slots, job: JobId, consent: bool, now: int)
    ensures var (s', reply) := Admit(s, job, consent, now);
            if HasAnother(s, job.owner) then reply == UserBusy && s' == s
            else if |s.active| < 2 then reply == Active && s' == s.(active := s.active + {job})
            else if !consent then reply == ConsentRequired && s' == s
            else if Size(s.waiting) >= 3 then reply == QueueFull && s' == s
            else reply == Waiting(Size(s.waiting) + 1, now + 180) && s'.active == s.active && s'.ticket == s.ticket + 1
  {
    assert Busy(s, job.owner) <==> HasAnother(s, job.owner) by {
      if HasAnother(s, job.owner) {
        var j :| j in Members(s) && j.owner == job.owner;
      }
    }
  }

  lemma {:induction false} ConcatMembers(q: Queue, last: Waiter, w: Waiter)
    ensures In(w, Concat(q, Line(last, Nobody))) <==> In(w, q) || w == last
    ensures last.job !in Jobs(q) ==>
              last.job in Jobs(Concat(q, Line(last, Nobody)))
              && Rank(Concat(q, Line(last, Nobody)), last.job) == Size(q)
  {
    if q.Line? {
      ConcatMembers(q.rest, last, w);
      InConcatJobs(q.rest, last);
    } else {
      assert In(w, Line(last, Nobody)) <==> w == last || In(w, Nobody);
    }
  }

  lemma {:induction false} InConcatJobs(q: Queue, last: Waiter)
    ensures last.job in Jobs(Concat(q, Line(last, Nobody)))
  {
    if q.Line? {
      InConcatJobs(q.rest, last);
    }
  }

  /** Joining adds one waiter behind all others, with the next ticket and 180 seconds from now. */
  lemma JoinExactly(s: Slots, job: JobId, now: int, w: Waiter)
    requires job !in Jobs(s.waiting)
    ensures In(w, Join(s, job, now).waiting) <==> In(w, s.waiting) || w == Waiter(job, s.ticket + 1, now, false)
    ensures job in Jobs(Join(s, job, now).waiting) && Rank(Join(s, job, now).waiting, job) == Size(s.waiting)
    ensures Waiter(job, s.ticket + 1, now, false).Deadline() == now + 180
  {
    ConcatMembers(s.waiting, Waiter(job, s.ticket + 1, now, false), w);
  }

  /** Where a job stands: in a slot, in the queue, or nowhere. */
  lemma StateExactly(s: Slots, job: JobId)
    requires s.active !! Jobs(s.waiting)
    ensures State(s, job) == Some(Active) <==> job in s.active
    ensures State(s, job) == None <==> job !in s.active && job !in Jobs(s.waiting)
    ensures job in Jobs(s.waiting) ==>
              State(s, job) == Some(Waiting(Rank(s.waiting, job) + 1, Find(s.waiting, job).Deadline()))
  {
  }

  /** A cancellation is granted exactly to a waiting job and takes exactly its place away. */
  lemma CancelExactly(s: Slots, job: JobId, w: Waiter)
    ensures var (s', removed) := Cancel(s, job);
            && (removed <==> job in Jobs(s.waiting)) && s'.active == s.active && s'.ticket == s.ticket
            && (In(w, s'.waiting) <==> In(w, s.waiting) && w.job != job)
  {
    KeepExactly(s.waiting, Other(job), w);
  }

  /** An extension is granted exactly to a waiting job that was not extended and whose deadline has not passed. */
  lemma ExtendExactly(s: Slots, job: JobId, now: int)
    ensures var (s', granted) := Extend(s, job, now);
            && (granted <==> && job in Jobs(s.waiting) && !Find(s.waiting, job).extended
                             && now <= Find(s.waiting, job).Deadline())
            && (!granted ==> s' == s)
            && (granted ==> && s'.active == s.active && s'.ticket == s.ticket && job in Jobs(s'.waiting)
                            && Rank(s'.waiting, job) == Rank(s.waiting, job)
                            && Find(s'.waiting, job).Deadline() == Find(s.waiting, job).Deadline() + 180)
  {
    if Extend(s, job, now).1 {
      ProlongedPlace(s.waiting, job);
    }
  }

  lemma {:induction false} FirstIsEarliest(q: Queue, low: int, high: int, w: Waiter)
    requires Ordered(q, low, high) && In(w, q)
    ensures low < w.ticket
    decreases q
  {
    if q.first != w {
      FirstIsEarliest(q.rest, q.first.ticket, high, w);
    }
  }

  /** A completion frees the slot of an active job for the waiter with the smallest ticket, if anybody waits. */
  lemma CompleteExactly(s: Slots, job: JobId, w: Waiter)
    requires Shape(s)
    ensures var (s', next) := Complete(s, job);
            && s'.ticket == s.ticket
            && (next.Some? <==> job in s.active && s.waiting != Nobody)
            && (job !in s.active ==> s' == s)
            && (job in s.active && next.None? ==> s'.active == s.active - {job} && s'.waiting == Nobody)
            && (next.Some? ==>
                  && In(next.value, s.waiting) && s'.active == s.active - {job} + {next.value.job}
                  && (In(w, s.waiting) ==> next.value.ticket <= w.ticket && (w == next.value || In(w, s'.waiting)))
                  && (In(w, s'.waiting) ==> In(w, s.waiting)))
  {
    if s.waiting.Line? && In(w, s.waiting.rest) {
      FirstIsEarliest(s.waiting.rest, s.waiting.first.ticket, s.ticket, w);
    }
  }
}
