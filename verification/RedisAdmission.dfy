/** A Redis sorted set and the commands on it that the scripts use. */
module SortedSet {
  import opened Common

  datatype ZSet = Empty | Item(member: JobId, score: nat, rest: ZSet)

  function MembersOf(z: ZSet): set<JobId> {
    if z.Empty? then {} else {z.member} + MembersOf(z.rest)
  }

  function ZCard(z: ZSet): nat {
    if z.Empty? then 0 else 1 + ZCard(z.rest)
  }

  function ZRem(z: ZSet, member: JobId): ZSet {
    if z.Empty? then Empty
    else if z.member == member then ZRem(z.rest, member)
    else Item(z.member, z.score, ZRem(z.rest, member))
  }

  /** Items stand in ascending order of score, members breaking ties. */
  function Insert(z: ZSet, member: JobId, score: nat): ZSet {
    if z.Empty? || score < z.score || (score == z.score && member.serial < z.member.serial)
    then Item(member, score, z)
    else Item(z.member, z.score, Insert(z.rest, member, score))
  }

  function ZAdd(z: ZSet, member: JobId, score: nat): ZSet {
    Insert(ZRem(z, member), member, score)
  }

  function ZRank(z: ZSet, member: JobId): nat
    requires member in MembersOf(z)
  {
    if z.member == member then 0 else 1 + ZRank(z.rest, member)
  }

  lemma {:induction false} InsertMembers(z: ZSet, member: JobId, score: nat)
    ensures MembersOf(Insert(z, member, score)) == MembersOf(z) + {member}
  {
    if z.Item? {
      InsertMembers(z.rest, member, score);
    }
  }

  lemma {:induction false} RemAbsent(z: ZSet, member: JobId)
    requires member !in MembersOf(z)
    ensures ZRem(z, member) == z
  {
    if z.Item? {
      RemAbsent(z.rest, member);
    }
  }
}

/**
 The admission state as it stands in Redis: a set, a sorted set, three hashes and a
 counter, changed in place by the six Lua scripts. `View` reads it as the abstract queue
 of `Admission`; each script is proved to be that queue's operation.
 */
module RedisAdmission {
  import opened Common
  import opened SortedSet
  import A = Admission

  /** The values of the six keys. */
  datatype Keys = Keys(
    active: set<JobId>,
    waiting: ZSet,
    users: map<UserId, JobId>,
    deadlines: map<JobId, int>,
    extended: map<JobId, bool>,
    sequence: nat
  )

  function Get<V>(m: map<JobId, V>, k: JobId, default: V): V {
    if k in m then m[k] else default
  }

  /** The waiter a sorted-set item stands for; its admission time is read off its deadline. */
  function Entrant(job: JobId, score: nat, deadlines: map<JobId, int>, extended: map<JobId, bool>): A.Waiter {
    var doubled := Get(extended, job, false);
    A.Waiter(job, score, Get(deadlines, job, 0) - A.WAIT_SECONDS - (if doubled then A.WAIT_SECONDS else 0), doubled)
  }

  function Waiters(z: ZSet, deadlines: map<JobId, int>, extended: map<JobId, bool>): A.Queue {
    if z.Empty? then A.Nobody else
    A.Line(Entrant(z.member, z.score, deadlines, extended), Waiters(z.rest, deadlines, extended))
  }

  function Abs(k: Keys): A.Slots {
    A.Slots(k.active, Waiters(k.waiting, k.deadlines, k.extended), k.sequence)
  }

  /** The users hash is exactly the bijection between members and their owners. */
  ghost predicate UsersMatch(users: map<UserId, JobId>, members: set<JobId>) {
    && (forall u :: u in users ==> users[u] in members && users[u].owner == u)
    && (forall j :: j in members ==> j.owner in users && users[j.owner] == j)
  }

  /** The deadlines and extended hashes cover exactly the waiting jobs. */
  ghost predicate HashesMatch(k: Keys) {
    k.deadlines.Keys == MembersOf(k.waiting) && k.extended.Keys == MembersOf(k.waiting)
  }

  ghost predicate Sound(k: Keys) {
    A.Shape(Abs(k)) && UsersMatch(k.users, A.Members(Abs(k))) && HashesMatch(k)
  }

  // ---------------------------------------------------------------- the sorted set as a queue

  lemma {:induction false} WaitersJobs(z: ZSet, deadlines: map<JobId, int>, extended: map<JobId, bool>)
    ensures A.Jobs(Waiters(z, deadlines, extended)) == MembersOf(z)
    ensures A.Size(Waiters(z, deadlines, extended)) == ZCard(z)
  {
    if z.Item? {
      WaitersJobs(z.rest, deadlines, extended);
    }
  }

  lemma {:induction false} WaitersFrame(z: ZSet, deadlines: map<JobId, int>, extended: map<JobId, bool>,
                                        deadlines': map<JobId, int>, extended': map<JobId, bool>)
    requires forall m :: m in MembersOf(z) ==> Get(deadlines, m, 0) == Get(deadlines', m, 0)
                                               && Get(extended, m, false) == Get(extended', m, false)
    ensures Waiters(z, deadlines, extended) == Waiters(z, deadlines', extended')
  {
    if z.Item? {
      WaitersFrame(z.rest, deadlines, extended, deadlines', extended');
    }
  }

  lemma {:induction false} WaitersRem(z: ZSet, deadlines: map<JobId, int>, extended: map<JobId, bool>, job: JobId)
    ensures Waiters(ZRem(z, job), deadlines, extended) == A.Keep(Waiters(z, deadlines, extended), A.Other(job))
    ensures MembersOf(ZRem(z, job)) == MembersOf(z) - {job}
  {
    if z.Item? {
      WaitersRem(z.rest, deadlines, extended, job);
    }
  }

  /** ZREM together with the two HDELs is the removal of one waiter. */
  lemma Dropped(z: ZSet, deadlines: map<JobId, int>, extended: map<JobId, bool>, job: JobId)
    ensures Waiters(ZRem(z, job), deadlines - {job}, extended - {job})
            == A.Keep(Waiters(z, deadlines, extended), A.Other(job))
    ensures MembersOf(ZRem(z, job)) == MembersOf(z) - {job}
  {
    WaitersRem(z, deadlines, extended, job);
    WaitersFrame(ZRem(z, job), deadlines - {job}, extended - {job}, deadlines, extended);
  }

  /** A score above every present one always lands at the end. */
  lemma {:induction false} AddNewest(z: ZSet, deadlines: map<JobId, int>, extended: map<JobId, bool>,
                                     job: JobId, score: nat, low: int, high: int)
    requires A.Ordered(Waiters(z, deadlines, extended), low, high) && high < score && job !in MembersOf(z)
    ensures Waiters(Insert(z, job, score), deadlines, extended)
            == A.Concat(Waiters(z, deadlines, extended),
                        A.Line(Entrant(job, score, deadlines, extended), A.Nobody))
    ensures MembersOf(Insert(z, job, score)) == MembersOf(z) + {job}
    ensures ZRank(Insert(z, job, score), job) == ZCard(z)
  {
    if z.Item? {
      AddNewest(z.rest, deadlines, extended, job, score, z.score, high);
    }
  }

  lemma {:induction false} ReadsAgree(z: ZSet, deadlines: map<JobId, int>, extended: map<JobId, bool>, job: JobId)
    requires job in MembersOf(z)
    ensures var q := Waiters(z, deadlines, extended);
            && job in A.Jobs(q)
            && A.Rank(q, job) == ZRank(z, job)
            && A.Find(q, job).Deadline() == Get(deadlines, job, 0)
            && A.Find(q, job).extended == Get(extended, job, false)
  {
    WaitersJobs(z, deadlines, extended);
    if z.member != job {
      ReadsAgree(z.rest, deadlines, extended, job);
    }
  }

  /** Moving the deadline and setting the flag is one extension. */
  lemma {:induction false} Prolonged(z: ZSet, deadlines: map<JobId, int>, extended: map<JobId, bool>, job: JobId,
                                     low: int, high: int)
    requires A.Ordered(Waiters(z, deadlines, extended), low, high)
    requires job in deadlines && !Get(extended, job, false)
    ensures Waiters(z, deadlines[job := deadlines[job] + A.WAIT_SECONDS], extended[job := true])
            == A.Prolong(Waiters(z, deadlines, extended), job)
  {
    if z.Item? {
      if z.member == job {
        WaitersJobs(z.rest, deadlines, extended);
        WaitersFrame(z.rest, deadlines, extended,
                     deadlines[job := deadlines[job] + A.WAIT_SECONDS], extended[job := true]);
      } else {
        Prolonged(z.rest, deadlines, extended, job, z.score, high);
      }
    }
  }

  lemma {:induction false} NothingToDrop(q: A.Queue, job: JobId)
    requires job !in A.Jobs(q)
    ensures A.Keep(q, A.Other(job)) == q
  {
    if q.Line? {
      NothingToDrop(q.rest, job);
    }
  }

  // ---------------------------------------------------------------- what each script writes

  function Activated(k: Keys, job: JobId, user: UserId): Keys {
    k.(active := k.active + {job}, users := k.users[user := job])
  }

  function Joined(k: Keys, job: JobId, user: UserId, now: int): Keys {
    k.(sequence := k.sequence + 1,
       waiting := ZAdd(k.waiting, job, k.sequence + 1),
       users := k.users[user := job],
       deadlines := k.deadlines[job := now + 180],
       extended := k.extended[job := false])
  }

  function Removed(k: Keys, job: JobId, user: UserId): Keys {
    k.(waiting := ZRem(k.waiting, job),
       users := k.users - {user},
       deadlines := k.deadlines - {job},
       extended := k.extended - {job})
  }

  function Extended(k: Keys, job: JobId): Keys
    requires job in k.deadlines
  {
    k.(deadlines := k.deadlines[job := k.deadlines[job] + 180], extended := k.extended[job := true])
  }

  function Freed(k: Keys, job: JobId, user: UserId): Keys {
    k.(active := k.active - {job}, users := k.users - {user})
  }

  function Swapped(k: Keys, job: JobId, user: UserId, next: JobId): Keys {
    k.(active := k.active - {job} + {next},
       waiting := ZRem(k.waiting, next),
       users := k.users - {user},
       deadlines := k.deadlines - {next},
       extended := k.extended - {next})
  }

  /** `_ADMIT` on the keys, for any user argument. */
  function AdmitAs(k: Keys, job: JobId, user: UserId, consent: bool, now: int): (Keys, A.Reply) {
    if user in k.users then (k, A.UserBusy)
    else if |k.active| < 2 then (Activated(k, job, user), A.Active)
    else if !consent then (k, A.ConsentRequired)
    else if ZCard(k.waiting) >= 3 then (k, A.QueueFull)
    else
      InsertMembers(ZRem(k.waiting, job), job, k.sequence + 1);
      (Joined(k, job, user, now), A.Waiting(ZRank(Joined(k, job, user, now).waiting, job) + 1, now + 180))
  }

  /** The HEXISTS test of `_ADMIT` is the test for a busy user. */
  lemma BusyUser(k: Keys, user: UserId)
    requires Sound(k)
    ensures user in k.users <==> A.Busy(Abs(k), user)
    ensures A.Jobs(Abs(k).waiting) == MembersOf(k.waiting) && A.Size(Abs(k).waiting) == ZCard(k.waiting)
  {
    WaitersJobs(k.waiting, k.deadlines, k.extended);
    if user in k.users {
      assert k.users[user] in A.Members(Abs(k));
    }
  }

  lemma UsersGrow(users: map<UserId, JobId>, members: set<JobId>, job: JobId)
    requires UsersMatch(users, members) && job.owner !in users
    ensures UsersMatch(users[job.owner := job], members + {job})
  {
  }

  lemma UsersShrink(users: map<UserId, JobId>, members: set<JobId>, job: JobId)
    requires UsersMatch(users, members) && job in members
    ensures UsersMatch(users - {job.owner}, members - {job})
  {
  }

  /** The users hash makes room for one job per user. */
  lemma SoundInv(k: Keys)
    requires Sound(k)
    ensures A.Inv(Abs(k))
  {
  }

  lemma ActivatedSound(k: Keys, job: JobId)
    requires Sound(k) && job.owner !in k.users && |k.active| < A.ACTIVE_LIMIT
    ensures Sound(Activated(k, job, job.owner))
    ensures Abs(Activated(k, job, job.owner)) == A.Activate(Abs(k), job)
  {
    BusyUser(k, job.owner);
    A.ActivateShape(Abs(k), job);
    UsersGrow(k.users, A.Members(Abs(k)), job);
  }

  lemma JoinedAbs(k: Keys, job: JobId, user: UserId, now: int)
    requires A.Ordered(Abs(k).waiting, -1, k.sequence) && HashesMatch(k) && job !in MembersOf(k.waiting)
    ensures Abs(Joined(k, job, user, now)) == A.Join(Abs(k), job, now)
    ensures HashesMatch(Joined(k, job, user, now))
    ensures MembersOf(Joined(k, job, user, now).waiting) == MembersOf(k.waiting) + {job}
    ensures ZRank(Joined(k, job, user, now).waiting, job) == ZCard(k.waiting)
  {
    RemAbsent(k.waiting, job);
    WaitersFrame(k.waiting, k.deadlines, k.extended, k.deadlines[job := now + 180], k.extended[job := false]);
    AddNewest(k.waiting, k.deadlines[job := now + 180], k.extended[job := false], job, k.sequence + 1, -1, k.sequence);
  }

  lemma JoinedSound(k: Keys, job: JobId, now: int)
    requires Sound(k) && job.owner !in k.users
    requires |k.active| >= A.ACTIVE_LIMIT && ZCard(k.waiting) < A.WAITING_LIMIT
    ensures Sound(Joined(k, job, job.owner, now))
    ensures job in MembersOf(Joined(k, job, job.owner, now).waiting)
    ensures ZRank(Joined(k, job, job.owner, now).waiting, job) == ZCard(k.waiting)
  {
    BusyUser(k, job.owner);
    assert job !in A.Members(Abs(k));
    A.JoinShape(Abs(k), job, now);
    UsersGrow(k.users, A.Members(Abs(k)), job);
    JoinedAbs(k, job, job.owner, now);
  }

  // `_ADMIT`, branch by branch, against the abstract admission.

  lemma AdmitBusy(k: Keys, job: JobId, consent: bool, now: int)
    requires Sound(k) && job.owner in k.users
    ensures A.Admit(Abs(k), job, consent, now) == (Abs(k), A.UserBusy)
  {
    BusyUser(k, job.owner);
  }

  lemma AdmitToSlot(k: Keys, job: JobId, consent: bool, now: int)
    requires Sound(k) && job.owner !in k.users && |k.active| < 2
    ensures Sound(Activated(k, job, job.owner))
    ensures A.Admit(Abs(k), job, consent, now) == (Abs(Activated(k, job, job.owner)), A.Active)
  {
    BusyUser(k, job.owner);
    ActivatedSound(k, job);
  }

  lemma AdmitDeclined(k: Keys, job: JobId, consent: bool, now: int)
    requires Sound(k) && job.owner !in k.users && |k.active| >= 2 && (!consent || ZCard(k.waiting) >= 3)
    ensures A.Admit(Abs(k), job, consent, now) == (Abs(k), if consent then A.QueueFull else A.ConsentRequired)
  {
    BusyUser(k, job.owner);
  }

  lemma AdmitToQueue(k: Keys, job: JobId, now: int)
    requires Sound(k) && job.owner !in k.users && |k.active| >= 2 && ZCard(k.waiting) < 3
    ensures A.Admit(Abs(k), job, true, now)
            == (A.Join(Abs(k), job, now), A.Waiting(ZCard(k.waiting) + 1, now + 180))
    ensures job !in MembersOf(k.waiting)
  {
    BusyUser(k, job.owner);
  }

  lemma JoinAdmits(k: Keys, job: JobId, now: int)
    requires Sound(k) && job.owner !in k.users && |k.active| >= 2 && ZCard(k.waiting) < 3
    ensures A.Admit(Abs(k), job, true, now)
            == (Abs(Joined(k, job, job.owner, now)), A.Waiting(ZCard(k.waiting) + 1, now + 180))
  {
    AdmitToQueue(k, job, now);
    JoinedAbs(k, job, job.owner, now);
  }

  ghost predicate RefinesAdmit(k: Keys, after: (Keys, A.Reply), job: JobId, consent: bool, now: int) {
    Sound(after.0) && (Abs(after.0), after.1) == A.Admit(Abs(k), job, consent, now)
  }

  lemma AdmitAsTail(k: Keys, job: JobId, user: UserId, now: int)
    requires user !in k.users && |k.active| >= 2 && ZCard(k.waiting) < 3
    ensures job in MembersOf(Joined(k, job, user, now).waiting)
    ensures AdmitAs(k, job, user, true, now)
            == (Joined(k, job, user, now), A.Waiting(ZRank(Joined(k, job, user, now).waiting, job) + 1, now + 180))
  {
    InsertMembers(ZRem(k.waiting, job), job, k.sequence + 1);
  }

  lemma JoinsAsOwner(k: Keys, job: JobId, now: int)
    requires Sound(k) && job.owner !in k.users && |k.active| >= 2 && ZCard(k.waiting) < 3
    ensures RefinesAdmit(k, AdmitAs(k, job, job.owner, true, now), job, true, now)
  {
    AdmitAsTail(k, job, job.owner, now);
    JoinAdmits(k, job, now);
    JoinedSound(k, job, now);
    assert AdmitAs(k, job, job.owner, true, now).1 == A.Waiting(ZCard(k.waiting) + 1, now + 180);
  }

  /** With the job's own owner as user the script is the abstract admission. */
  lemma AdmitAsOwner(k: Keys, job: JobId, consent: bool, now: int)
    requires Sound(k)
    ensures RefinesAdmit(k, AdmitAs(k, job, job.owner, consent, now), job, consent, now)
  {
    if job.owner in k.users {
      AdmitBusy(k, job, consent, now);
    } else if |k.active| < 2 {
      AdmitToSlot(k, job, consent, now);
    } else if !consent || ZCard(k.waiting) >= 3 {
      AdmitDeclined(k, job, consent, now);
    } else {
      JoinsAsOwner(k, job, now);
    }
  }

  /** That its callers pass the owner is needed: for anyone else a job that gets in breaks the users hash. */
  lemma AdmitNeedsOwner(k: Keys, job: JobId, user: UserId, consent: bool, now: int)
    requires Sound(k)
    ensures var (k', reply) := AdmitAs(k, job, user, consent, now);
            Sound(k') <==> user == job.owner || !(reply.Active? || reply.Waiting?)
  {
    var (k', reply) := AdmitAs(k, job, user, consent, now);
    if user == job.owner {
      AdmitAsOwner(k, job, consent, now);
    } else if reply.Active? || reply.Waiting? {
      assert user in k'.users && k'.users[user] == job;
    }
  }

  lemma RemovedHashes(k: Keys, job: JobId, user: UserId)
    requires HashesMatch(k) && job !in k.active
    ensures HashesMatch(Removed(k, job, user))
    ensures Abs(Removed(k, job, user)) == A.Cancel(Abs(k), job).0
    ensures A.Members(Abs(Removed(k, job, user))) == A.Members(Abs(k)) - {job}
  {
    Dropped(k.waiting, k.deadlines, k.extended, job);
    WaitersJobs(k.waiting, k.deadlines, k.extended);
    WaitersJobs(ZRem(k.waiting, job), k.deadlines - {job}, k.extended - {job});
    assert A.Members(Abs(Removed(k, job, user))) == A.Members(Abs(k)) - {job};
  }

  lemma WaitingMember(k: Keys, job: JobId)
    requires A.Shape(Abs(k)) && job in MembersOf(k.waiting)
    ensures job in A.Members(Abs(k)) && job !in k.active
  {
    WaitersJobs(k.waiting, k.deadlines, k.extended);
  }

  lemma RemovedSound(k: Keys, job: JobId)
    requires Sound(k) && job in MembersOf(k.waiting)
    ensures Sound(Removed(k, job, job.owner))
    ensures Abs(Removed(k, job, job.owner)) == A.Cancel(Abs(k), job).0
  {
    WaitingMember(k, job);
    RemovedHashes(k, job, job.owner);
    A.KeptShape(Abs(k), A.Other(job));
    UsersShrink(k.users, A.Members(Abs(k)), job);
  }

  lemma ExtendedHashes(k: Keys, job: JobId)
    requires HashesMatch(k) && job in MembersOf(k.waiting)
    ensures HashesMatch(Extended(k, job))
  {
    assert k.deadlines.Keys + {job} == k.deadlines.Keys;
    assert k.extended.Keys + {job} == k.extended.Keys;
  }

  lemma ExtendedAbs(k: Keys, job: JobId)
    requires A.Ordered(Abs(k).waiting, -1, k.sequence) && job in k.deadlines && !Get(k.extended, job, false)
    ensures Abs(Extended(k, job)) == Abs(k).(waiting := A.Prolong(Abs(k).waiting, job))
  {
    Prolonged(k.waiting, k.deadlines, k.extended, job, -1, k.sequence);
  }

  lemma ExtendedSound(k: Keys, job: JobId)
    requires Sound(k) && job in MembersOf(k.waiting) && !k.extended[job]
    ensures Sound(Extended(k, job))
    ensures Abs(Extended(k, job)) == Abs(k).(waiting := A.Prolong(Abs(k).waiting, job))
  {
    ExtendedAbs(k, job);
    A.ProlongedShape(Abs(k), job);
    ExtendedHashes(k, job);
  }

  /** `_EXTEND` on the keys. */
  function ExtendKeys(k: Keys, job: JobId, now: int): (Keys, bool) {
    if job !in MembersOf(k.waiting) || job !in k.extended || k.extended[job]
       || job !in k.deadlines || now > k.deadlines[job] then (k, false)
    else (Extended(k, job), true)
  }

  /** What HGETs of a waiting job return. */
  lemma HashReads(k: Keys, job: JobId)
    requires Sound(k) && job in MembersOf(k.waiting)
    ensures job in A.Jobs(Abs(k).waiting) && job in k.deadlines && job in k.extended && job !in k.active
    ensures A.Rank(Abs(k).waiting, job) == ZRank(k.waiting, job)
    ensures A.Find(Abs(k).waiting, job).Deadline() == k.deadlines[job]
    ensures A.Find(Abs(k).waiting, job).extended == k.extended[job]
  {
    ReadsAgree(k.waiting, k.deadlines, k.extended, job);
  }

  /** On sound keys it is the abstract extension. */
  lemma ExtendRefines(k: Keys, job: JobId, now: int)
    requires Sound(k)
    ensures var (k', granted) := ExtendKeys(k, job, now);
            Sound(k') && (Abs(k'), granted) == A.Extend(Abs(k), job, now)
  {
    WaitersJobs(k.waiting, k.deadlines, k.extended);
    if job in MembersOf(k.waiting) {
      HashReads(k, job);
      if !k.extended[job] && now <= k.deadlines[job] {
        ExtendedSound(k, job);
      }
    }
  }

  lemma FreedSound(k: Keys, job: JobId)
    requires Sound(k) && job in k.active && k.waiting.Empty?
    ensures Sound(Freed(k, job, job.owner))
    ensures Abs(Freed(k, job, job.owner)) == A.Complete(Abs(k), job).0
  {
    A.CompleteShape(Abs(k), job);
    UsersShrink(k.users, A.Members(Abs(k)), job);
  }

  lemma SwappedSound(k: Keys, job: JobId)
    requires Sound(k) && job in k.active && k.waiting.Item?
    ensures Sound(Swapped(k, job, job.owner, k.waiting.member))
    ensures Abs(Swapped(k, job, job.owner, k.waiting.member)) == A.Complete(Abs(k), job).0
  {
    var k' := Swapped(k, job, job.owner, k.waiting.member);
    A.CompleteShape(Abs(k), job);
    Dropped(k.waiting, k.deadlines, k.extended, k.waiting.member);
    NothingToDrop(Abs(k).waiting.rest, k.waiting.member);
    UsersShrink(k.users, A.Members(Abs(k)), job);
    assert Abs(k') == A.Complete(Abs(k), job).0;
  }

  // ---------------------------------------------------------------- the sweep loop

  function Snoc(q: A.Queue, w: A.Waiter): A.Queue {
    A.Concat(q, A.Line(w, A.Nobody))
  }

  function JobList(q: A.Queue): seq<JobId> {
    if q.Nobody? then [] else [q.first.job] + JobList(q.rest)
  }

  lemma {:induction false} ListedJobs(q: A.Queue)
    ensures forall id :: id in JobList(q) <==> id in A.Jobs(q)
  {
    if q.Line? {
      ListedJobs(q.rest);
    }
  }

  lemma {:induction false} ListSnoc(q: A.Queue, w: A.Waiter)
    ensures JobList(Snoc(q, w)) == JobList(q) + [w.job]
  {
    if q.Line? {
      ListSnoc(q.rest, w);
    }
  }

  lemma {:induction false} KeepSnoc(q: A.Queue, w: A.Waiter, p: A.Waiter -> bool)
    ensures A.Keep(Snoc(q, w), p) == if p(w) then Snoc(A.Keep(q, p), w) else A.Keep(q, p)
  {
    if q.Line? {
      KeepSnoc(q.rest, w, p);
    }
  }

  lemma {:induction false} SnocConcat(q: A.Queue, w: A.Waiter, r: A.Queue)
    ensures A.Concat(Snoc(q, w), r) == A.Concat(q, A.Line(w, r))
  {
    if q.Line? {
      SnocConcat(q.rest, w, r);
    }
  }

  lemma {:induction false} ConcatNobody(q: A.Queue)
    ensures A.Concat(q, A.Nobody) == q
  {
    if q.Line? {
      ConcatNobody(q.rest);
    }
  }

  lemma {:induction false} JobsConcat(q: A.Queue, r: A.Queue)
    ensures A.Jobs(A.Concat(q, r)) == A.Jobs(q) + A.Jobs(r)
  {
    if q.Line? {
      JobsConcat(q.rest, r);
    }
  }

  lemma {:induction false} KeptJobs(q: A.Queue, p: A.Waiter -> bool)
    ensures A.Jobs(A.Keep(q, p)) <= A.Jobs(q)
  {
    if q.Line? {
      KeptJobs(q.rest, p);
    }
  }

  lemma {:induction false} DistinctMiddle(done: A.Queue, w: A.Waiter, rest: A.Queue, low: int, high: int)
    requires A.Ordered(A.Concat(done, A.Line(w, rest)), low, high)
    ensures w.job !in A.Jobs(done) && w.job !in A.Jobs(rest)
  {
    if done.Line? {
      DistinctMiddle(done.rest, w, rest, done.first.ticket, high);
      JobsConcat(done.rest, A.Line(w, rest));
    }
  }

  lemma {:induction false} FindMiddle(done: A.Queue, w: A.Waiter, rest: A.Queue)
    requires w.job !in A.Jobs(done)
    ensures w.job in A.Jobs(A.Concat(done, A.Line(w, rest)))
    ensures A.Find(A.Concat(done, A.Line(w, rest)), w.job) == w
  {
    if done.Line? {
      FindMiddle(done.rest, w, rest);
    }
  }

  lemma {:induction false} DropMiddle(done: A.Queue, w: A.Waiter, rest: A.Queue)
    requires w.job !in A.Jobs(done) && w.job !in A.Jobs(rest)
    ensures A.Keep(A.Concat(done, A.Line(w, rest)), A.Other(w.job)) == A.Concat(done, rest)
  {
    if done.Line? {
      DropMiddle(done.rest, w, rest);
    } else {
      NothingToDrop(rest, w.job);
    }
  }

  /** One pass of the outer loop of `_SWEEP`, on the abstract queue. */
  lemma SweepStep(done: A.Queue, w: A.Waiter, rest: A.Queue, now: int, low: int, high: int)
    requires A.Ordered(A.Concat(done, A.Line(w, rest)), low, high)
    ensures var kept := A.Keep(done, A.Unexpired(now));
            var kept' := A.Keep(Snoc(done, w), A.Unexpired(now));
            var queue := A.Concat(kept, A.Line(w, rest));
            && w.job in A.Jobs(queue) && A.Find(queue, w.job) == w
            && A.Concat(kept', rest) == (if now >= w.Deadline() then A.Keep(queue, A.Other(w.job)) else queue)
            && JobList(A.Keep(Snoc(done, w), A.Expired(now)))
               == JobList(A.Keep(done, A.Expired(now))) + (if now >= w.Deadline() then [w.job] else [])
            && A.Concat(Snoc(done, w), rest) == A.Concat(done, A.Line(w, rest))
  {
    var kept := A.Keep(done, A.Unexpired(now));
    DistinctMiddle(done, w, rest, low, high);
    KeptJobs(done, A.Unexpired(now));
    FindMiddle(kept, w, rest);
    KeepSnoc(done, w, A.Unexpired(now));
    KeepSnoc(done, w, A.Expired(now));
    ListSnoc(A.Keep(done, A.Expired(now)), w);
    SnocConcat(kept, w, rest);
    SnocConcat(done, w, rest);
    DropMiddle(kept, w, rest);
  }

  /** The server's six keys; a script is atomic, so it works on them and leaves them once. */
  class Store {
    var keys: Keys

    ghost function View(): A.Slots
      reads this
    {
      Abs(keys)
    }

    ghost predicate Valid()
      reads this
    {
      Sound(keys)
    }

    constructor ()
      ensures Valid() && View() == A.EMPTY
    {
      keys := Keys({}, Empty, map[], map[], map[], 0);
    }

    /** `admit`: with the owner as user the script is the abstract admission. */
    method Admit(job: JobId, user: UserId, consent: bool, now: int) returns (reply: A.Reply)
      modifies this
      ensures (keys, reply) == AdmitAs(old(keys), job, user, consent, now)
      ensures old(Valid()) && user == job.owner ==>
                Valid() && (View(), reply) == A.Admit(old(View()), job, consent, now)
    {
      ghost var k := keys;
      if old(Valid()) && user == job.owner {
        AdmitAsOwner(k, job, consent, now);
      }
      reply := RunAdmit(job, user, consent, now);
    }

    /** `_ADMIT` */
    method RunAdmit(job: JobId, user: UserId, consent: bool, now: int) returns (reply: A.Reply)
      modifies this
      ensures (keys, reply) == AdmitAs(old(keys), job, user, consent, now)
    {
      var k := keys;
      if user in k.users {
        return A.UserBusy;
      }
      if |k.active| < 2 {
        k := k.(active := k.active + {job});
        k := k.(users := k.users[user := job]);
        keys := k;
        return A.Active;
      }
      if !consent {
        return A.ConsentRequired;
      }
      if ZCard(k.waiting) >= 3 {
        return A.QueueFull;
      }
      reply := Enqueue(job, user, now);
    }

    /** The tail of `_ADMIT` from INCR on. */
    method Enqueue(job: JobId, user: UserId, now: int) returns (reply: A.Reply)
      modifies this
      ensures keys == Joined(old(keys), job, user, now)
      ensures job in MembersOf(keys.waiting) && reply == A.Waiting(ZRank(keys.waiting, job) + 1, now + 180)
    {
      var k := keys;
      InsertMembers(ZRem(k.waiting, job), job, k.sequence + 1);
      k := k.(sequence := k.sequence + 1);
      k := k.(waiting := ZAdd(k.waiting, job, k.sequence));
      k := k.(users := k.users[user := job]);
      k := k.(deadlines := k.deadlines[job := now + 180]);
      k := k.(extended := k.extended[job := false]);
      keys := k;
      return A.Waiting(ZRank(k.waiting, job) + 1, now + 180);
    }

    /** `_STATE` */
    method State(job: JobId) returns (state: Option<A.Reply>)
      requires Valid()
      ensures state == A.State(View(), job)
    {
      var k := keys;
      WaitersJobs(k.waiting, k.deadlines, k.extended);
      if job in k.active {
        return Some(A.Active);
      }
      if job !in MembersOf(k.waiting) {
        return None;
      }
      HashReads(k, job);
      return Some(A.Waiting(ZRank(k.waiting, job) + 1, Get(k.deadlines, job, 0)));
    }

    /** `_CANCEL`: only the job's own user can cancel it. */
    method Cancel(job: JobId, user: UserId) returns (removed: bool)
      requires Valid()
      modifies this
      ensures Valid()
      ensures if user == job.owner then (View(), removed) == A.Cancel(old(View()), job)
              else !removed && keys == old(keys)
    {
      var k := keys;
      CancelReads(k, job);
      if user !in k.users || k.users[user] != job {
        return false;
      }
      removed := job in MembersOf(k.waiting);
      k := k.(waiting := ZRem(k.waiting, job));
      if removed {
        RemovedSound(keys, job);
        k := k.(users := k.users - {user});
        k := k.(deadlines := k.deadlines - {job});
        k := k.(extended := k.extended - {job});
      }
      keys := k;
    }

    /** `_EXTEND` */
    method Extend(job: JobId, now: int) returns (granted: bool)
      requires Valid()
      modifies this
      ensures Valid() && (View(), granted) == A.Extend(old(View()), job, now)
    {
      ExtendRefines(keys, job, now);
      granted := RunExtend(job, now);
    }

    /** The script, on any keys. */
    method RunExtend(job: JobId, now: int) returns (granted: bool)
      modifies this
      ensures (keys, granted) == ExtendKeys(old(keys), job, now)
    {
      var k := keys;
      if job !in MembersOf(k.waiting) {
        return false;
      }
      if job !in k.extended || k.extended[job] {
        return false;
      }
      if job !in k.deadlines || now > k.deadlines[job] {
        return false;
      }
      k := k.(deadlines := k.deadlines[job := k.deadlines[job] + 180]);
      k := k.(extended := k.extended[job := true]);
      keys := k;
      return true;
    }

    /** `_SWEEP` */
    method Sweep(now: int) returns (expired: seq<JobId>)
      requires Valid()
      modifies this
      ensures Valid() && View() == A.Sweep(old(View()), now).0
      ensures expired == JobList(A.Sweep(old(View()), now).1)
    {
      expired := [];
      var jobs := keys.waiting;
      ghost var q, done, todo := View().waiting, A.Nobody, View().waiting;
      ghost var deadlines0, extended0 := keys.deadlines, keys.extended;
      while jobs.Item?
        invariant Valid() && View().ticket == old(View()).ticket && View().active == old(View()).active
        invariant A.Ordered(q, -1, View().ticket) && q == A.Concat(done, todo)
        invariant todo == Waiters(jobs, deadlines0, extended0)
        invariant View().waiting == A.Concat(A.Keep(done, A.Unexpired(now)), todo)
        invariant expired == JobList(A.Keep(done, A.Expired(now)))
        decreases todo
      {
        var job := jobs.member;
        SweepStep(done, todo.first, todo.rest, now, -1, View().ticket);
        WaitersJobs(keys.waiting, keys.deadlines, keys.extended);
        HashReads(keys, job);
        if job in keys.deadlines && now >= keys.deadlines[job] {
          Expire(job);
          expired := expired + [job];
        }
        done, todo := Snoc(done, todo.first), todo.rest;
        jobs := jobs.rest;
      }
      ConcatNobody(done);
      ConcatNobody(A.Keep(done, A.Unexpired(now)));
    }

    /** One expired job of `_SWEEP`. */
    method Expire(job: JobId)
      requires Valid() && job in MembersOf(keys.waiting)
      modifies this
      ensures Valid() && View() == A.Cancel(old(View()), job).0
    {
      var k := keys;
      RemovedSound(k, job);
      WaitingMember(k, job);
      k := k.(waiting := ZRem(k.waiting, job));
      k := k.(deadlines := k.deadlines - {job});
      k := k.(extended := k.extended - {job});
      var users := ForgetUserOf(k.users, job, job.owner);
      keys := k.(users := users);
    }

    /** `_COMPLETE`; for another user than the owner it empties the slot, promotes nobody and leaves the users hash. */
    method Complete(job: JobId, user: UserId) returns (promoted: Option<JobId>)
      requires Valid()
      modifies this
      ensures user == job.owner ==>
                && Valid() && View() == A.Complete(old(View()), job).0
                && promoted == var next := A.Complete(old(View()), job).1;
                               if next.Some? then Some(next.value.job) else None
      ensures user != job.owner ==>
                && keys == old(keys).(active := old(keys).active - {job}) && promoted == None
                && (Valid() <==> job !in old(keys).active)
    {
      var k := keys;
      CompleteReads(k, job);
      var removed := job in k.active;
      k := k.(active := k.active - {job});
      if !removed || user !in k.users || k.users[user] != job {
        keys := k;
        return None;
      }
      k := k.(users := k.users - {user});
      if k.waiting.Empty? {
        FreedSound(keys, job);
        keys := k;
        return None;
      }
      SwappedSound(keys, job);
      var next := k.waiting.member;
      k := k.(waiting := ZRem(k.waiting, next));
      k := k.(active := k.active + {next});
      k := k.(deadlines := k.deadlines - {next});
      k := k.(extended := k.extended - {next});
      keys := k;
      return Some(next);
    }
  }

  /** The inner loop of `_SWEEP`: walk HGETALL of the users until one holds the job. */
  method ForgetUserOf(users: map<UserId, JobId>, job: JobId, ghost user: UserId) returns (left: map<UserId, JobId>)
    requires user in users && users[user] == job
    requires forall u :: u in users && users[u] == job ==> u == user
    ensures left == users - {user}
  {
    var rest := users.Keys;
    while true
      invariant user in rest && rest <= users.Keys
      decreases |rest|
    {
      var u :| u in rest;
      if users[u] == job {
        return users - {u};
      }
      rest := rest - {u};
    }
  }

  /** `_CANCEL` of a job that is not waiting changes nothing, whoever its user is. */
  lemma CancelReads(k: Keys, job: JobId)
    requires Sound(k)
    ensures A.Jobs(Abs(k).waiting) == MembersOf(k.waiting)
    ensures job in MembersOf(k.waiting) ==> job.owner in k.users && k.users[job.owner] == job
    ensures job !in MembersOf(k.waiting) ==>
              ZRem(k.waiting, job) == k.waiting && A.Cancel(Abs(k), job) == (Abs(k), false)
  {
    WaitersJobs(k.waiting, k.deadlines, k.extended);
    if job !in MembersOf(k.waiting) {
      RemAbsent(k.waiting, job);
      NothingToDrop(Abs(k).waiting, job);
    } else {
      WaitingMember(k, job);
    }
  }

  lemma CompleteReads(k: Keys, job: JobId)
    requires Sound(k)
    ensures job in k.active ==> job.owner in k.users && k.users[job.owner] == job
    ensures job !in k.active ==> k.(active := k.active - {job}) == k && A.Complete(Abs(k), job) == (Abs(k), None)
  {
    if job in k.active {
      assert job in A.Members(Abs(k));
    } else {
      assert k.active - {job} == k.active;
    }
  }
}
