/**
 The two Postgres tables behind `AnalysisJobRepository`, changed in place. `Ledger` groups
 each job with its outbox rows, and every mutator is proved to fire exactly one
 `JobLifecycle` event on that view.
 */
module JobTable {
  import opened Common
  import opened Retry
  import opened JobLifecycle

  type OutboxKey = (JobId, nat)
  type Ledger = map<JobId, Entry>

  datatype Answer = Done(accepted: bool) | Thrown

  /** The outbox table, indexed by `analysis_job_id` and then by `delivery_generation`. */
  type Outbox = map<JobId, map<nat, OutboxRow>>

  function RowsOf(outbox: Outbox, id: JobId): map<nat, OutboxRow> {
    if id in outbox then outbox[id] else map[]
  }

  predicate Due(outbox: Outbox, key: OutboxKey, now: int) {
    key.1 in RowsOf(outbox, key.0) && RowsOf(outbox, key.0)[key.1].Due(now)
  }

  /** The rows a publisher may pick: due, and not locked by another one. */
  function DueKeys(outbox: Outbox, now: int, locked: set<OutboxKey>): set<OutboxKey> {
    set id, k | id in outbox && k in outbox[id] && outbox[id][k].Due(now) && (id, k) !in locked :: (id, k)
  }

  /** Unpublished, with no next attempt still ahead, and not locked. */
  predicate Publishable(outbox: Outbox, key: OutboxKey, now: int, locked: set<OutboxKey>) {
    && key.0 in outbox && key.1 in outbox[key.0] && key !in locked
    && !outbox[key.0][key.1].published
    && (outbox[key.0][key.1].nextAttempt.Some? ==> outbox[key.0][key.1].nextAttempt.value <= now)
  }

  function SetRow(outbox: Outbox, id: JobId, k: nat, row: OutboxRow): Outbox {
    outbox[id := RowsOf(outbox, id)[k := row]]
  }

  function Group(jobs: map<JobId, Job>, outbox: Outbox): Ledger {
    map id | id in jobs :: Entry(jobs[id], RowsOf(outbox, id))
  }

  /** The event on one job of the ledger; an unknown id changes nothing. */
  function Fire(ledger: Ledger, id: JobId, ev: Event): Ledger {
    if id in ledger then ledger[id := After(ledger[id], ev)] else ledger
  }

  predicate Accepts(ledger: Ledger, id: JobId, ev: Event) {
    id in ledger && Decide(ledger[id], ev).Applied?
  }

  predicate Throws(ledger: Ledger, id: JobId, ev: Event) {
    id in ledger && Decide(ledger[id], ev).Raised?
  }

  lemma GroupSetsJob(jobs: map<JobId, Job>, outbox: Outbox, id: JobId, job: Job)
    requires id in jobs
    ensures Group(jobs[id := job], outbox) == Group(jobs, outbox)[id := Group(jobs, outbox)[id].(job := job)]
  {
  }

  lemma GroupSetsRow(jobs: map<JobId, Job>, outbox: Outbox, id: JobId, k: nat, row: OutboxRow)
    requires id in jobs
    ensures var e := Group(jobs, outbox)[id];
            Group(jobs, SetRow(outbox, id, k, row)) == Group(jobs, outbox)[id := e.(outbox := e.outbox[k := row])]
  {
  }

  /** An unsupported target raises before anything is written. */
  lemma TerminalizeNeedsTarget(ledger: Ledger, id: JobId, target: Status, now: int)
    requires target !in {FAILED, CANCELLED}
    ensures Fire(ledger, id, Terminalize(target, now)) == ledger
    ensures !Accepts(ledger, id, Terminalize(target, now))
  {
    if id in ledger {
      UpdateSame(ledger, id);
    }
  }

  class Table {
    var jobs: map<JobId, Job>
    var outbox: Outbox

    /** The foreign key from an outbox row to its job. */
    ghost predicate Valid()
      reads this
    {
      outbox.Keys <= jobs.Keys
    }

    ghost function View(): Ledger
      reads this
    {
      Group(jobs, outbox)
    }

    constructor ()
      ensures Valid() && View() == map[]
    {
      jobs, outbox := map[], map[];
    }

    method Create(id: JobId, owner: UserId, maxAttempts: nat)
      requires Valid() && id !in jobs
      modifies this
      ensures Valid() && View() == old(View())[id := Fresh(owner, maxAttempts)]
    {
      jobs := jobs[id := Fresh(owner, maxAttempts).job];
    }

    /** INSERT ... ON CONFLICT DO NOTHING on the unique delivery key. */
    method InsertOutbox(id: JobId, k: nat, due: Option<int>)
      requires Valid() && id in jobs
      modifies this`outbox
      ensures Valid()
      ensures var e := old(View())[id];
              View() == old(View())[id := e.(outbox := InsertRow(e.outbox, k, due))]
    {
      if k !in RowsOf(outbox, id) {
        GroupSetsRow(jobs, outbox, id, k, OutboxRow(false, 0, due, None));
        outbox := SetRow(outbox, id, k, OutboxRow(false, 0, due, None));
      }
    }

    method EnsureOutbox(id: JobId)
      requires Valid() && id in jobs
      modifies this`outbox
      ensures Valid() && View() == Fire(old(View()), id, JobLifecycle.EnsureOutbox)
    {
      InsertOutbox(id, 0, None);
    }

    method MarkOutboxPublished(id: JobId, k: nat, now: int) returns (answer: Answer)
      requires Valid() && Due(outbox, (id, k), now)
      modifies this
      ensures Valid() && View() == Fire(old(View()), id, Publish(k, now))
      ensures answer.Done? ==> answer.accepted
      ensures answer.Thrown? <==> Throws(old(View()), id, Publish(k, now))
      ensures forall key: OutboxKey :: key != (id, k) && Due(old(outbox), key, now) ==> Due(outbox, key, now)
    {
      var job := jobs[id];
      if (job.status == PENDING || job.status == RETRY_SCHEDULED) && QUEUED !in Allowed(job.status) {
        return Thrown;
      }
      var row := outbox[id][k].(published := true);
      row := row.(publishedAt := Some(now));
      GroupSetsRow(jobs, outbox, id, k, row);
      outbox := SetRow(outbox, id, k, row);
      if job.status == PENDING || job.status == RETRY_SCHEDULED {
        GroupSetsJob(jobs, outbox, id, job.(status := QUEUED));
        jobs := jobs[id := job.(status := QUEUED)];
      }
      return Done(true);
    }

    method RecordOutboxFailure(id: JobId, k: nat, now: int)
      requires Valid() && Due(outbox, (id, k), now)
      modifies this`outbox
      ensures Valid() && View() == Fire(old(View()), id, PublishFailure(k, now))
      ensures forall key: OutboxKey :: key != (id, k) && Due(old(outbox), key, now) ==> Due(outbox, key, now)
    {
      var row := outbox[id][k];
      PublisherBackoff(row.attempts + 1);
      var delay := PUBLISHER_POLICY.Delay(row.attempts + 1, 0).value;
      row := row.(attempts := row.attempts + 1);
      row := row.(nextAttempt := Some(now + delay));
      GroupSetsRow(jobs, outbox, id, k, row);
      outbox := SetRow(outbox, id, k, row);
    }

    method ClaimJob(id: JobId, w: WorkerId, now: int, leaseSeconds: int) returns (claimed: Option<Job>)
      requires Valid()
      modifies this`jobs
      ensures Valid() && View() == Fire(old(View()), id, Claim(w, now, leaseSeconds))
      ensures claimed.Some? <==> Accepts(old(View()), id, Claim(w, now, leaseSeconds))
      ensures claimed.Some? ==> id in jobs && claimed.value == jobs[id] && id in old(jobs)
      ensures claimed.Some? ==>
                && claimed.value.worker == Some(w) && claimed.value.leaseExpires == Some(now + leaseSeconds)
                && claimed.value.heartbeat == Some(now) && claimed.value.generation == old(jobs)[id].generation + 1
    {
      if id !in jobs || jobs[id].status != QUEUED {
        return None;
      }
      var job := jobs[id].(status := CLAIMED);
      job := job.(heartbeat := Some(now));
      job := job.(leaseExpires := Some(now + leaseSeconds));
      job := job.(worker := Some(w));
      job := job.(generation := job.generation + 1);
      job := job.(attempts := job.attempts + 1);
      GroupSetsJob(jobs, outbox, id, job);
      jobs := jobs[id := job];
      return Some(job);
    }

    method StartJob(id: JobId, w: WorkerId, g: nat, now: int) returns (started: bool)
      requires Valid()
      modifies this`jobs
      ensures Valid() && View() == Fire(old(View()), id, Start(w, g, now))
      ensures started <==> Accepts(old(View()), id, Start(w, g, now))
    {
      if id !in jobs || jobs[id].status != CLAIMED || !jobs[id].OwnsLease(w, g) {
        return false;
      }
      GroupSetsJob(jobs, outbox, id, jobs[id].(status := RUNNING));
      jobs := jobs[id := jobs[id].(status := RUNNING)];
      return true;
    }

    method HeartbeatJob(id: JobId, w: WorkerId, g: nat, now: int, leaseSeconds: int) returns (kept: bool)
      requires Valid()
      modifies this`jobs
      ensures Valid() && View() == Fire(old(View()), id, Heartbeat(w, g, now, leaseSeconds))
      ensures kept <==> Accepts(old(View()), id, Heartbeat(w, g, now, leaseSeconds))
      ensures kept ==>
                id in jobs && jobs[id].leaseExpires == Some(now + leaseSeconds) && jobs[id].heartbeat == Some(now)
    {
      if id !in jobs || !jobs[id].Leased() || !jobs[id].OwnsLease(w, g) {
        return false;
      }
      var job := jobs[id];
      if job.leaseExpires.None? || job.leaseExpires.value <= now {
        return false;
      }
      job := job.(heartbeat := Some(now));
      job := job.(leaseExpires := Some(now + leaseSeconds));
      GroupSetsJob(jobs, outbox, id, job);
      jobs := jobs[id := job];
      return true;
    }

    method CompleteJob(id: JobId, w: WorkerId, g: nat, now: int) returns (completed: bool)
      requires Valid()
      modifies this`jobs
      ensures Valid() && View() == Fire(old(View()), id, Complete(w, g, now))
      ensures completed <==> Accepts(old(View()), id, Complete(w, g, now))
    {
      if id !in jobs || jobs[id].status != RUNNING || !jobs[id].OwnsLease(w, g) {
        return false;
      }
      var job := jobs[id].(status := SUCCEEDED);
      job := job.(completedAt := Some(now));
      job := job.(finishedAt := Some(now));
      job := job.(worker := None);
      job := job.(leaseExpires := None);
      job := job.(heartbeat := None);
      GroupSetsJob(jobs, outbox, id, job);
      jobs := jobs[id := job];
      return true;
    }

    /** The assignments and the outbox insert that end both retry mutators. */
    method Reschedule(id: JobId, when: int)
      requires Valid() && id in jobs && RETRY_SCHEDULED in Allowed(jobs[id].status)
      modifies this
      ensures Valid()
      ensures View() == old(View())[id := JobLifecycle.Reschedule(old(View())[id], when).entry]
    {
      var job := jobs[id].(status := RETRY_SCHEDULED);
      job := job.(nextAttempt := Some(when));
      job := job.(attempts := job.attempts + 1);
      job := job.(worker := None);
      job := job.(leaseExpires := None);
      job := job.(heartbeat := None);
      GroupSetsJob(jobs, outbox, id, job);
      jobs := jobs[id := job];
      InsertOutbox(id, job.attempts, Some(when));
    }

    method ScheduleRetry(id: JobId, w: WorkerId, g: nat, when: int) returns (scheduled: bool)
      requires Valid()
      modifies this
      ensures Valid() && View() == Fire(old(View()), id, JobLifecycle.ScheduleRetry(w, g, when))
      ensures scheduled <==> Accepts(old(View()), id, JobLifecycle.ScheduleRetry(w, g, when))
    {
      if id !in jobs || !jobs[id].Leased() || !jobs[id].OwnsLease(w, g) {
        return false;
      }
      Reschedule(id, when);
      return true;
    }

    method FailJob(id: JobId, w: WorkerId, g: nat, now: int) returns (failed: bool)
      requires Valid()
      modifies this`jobs
      ensures Valid() && View() == Fire(old(View()), id, Fail(w, g, now))
      ensures failed <==> Accepts(old(View()), id, Fail(w, g, now))
    {
      if id !in jobs || jobs[id].status in TERMINAL || !jobs[id].OwnsLease(w, g) {
        return false;
      }
      var job := jobs[id].(status := FAILED);
      job := job.(failedAt := Some(now));
      job := job.(finishedAt := Some(now));
      job := job.(worker := None);
      job := job.(leaseExpires := None);
      job := job.(heartbeat := None);
      GroupSetsJob(jobs, outbox, id, job);
      jobs := jobs[id := job];
      return true;
    }

    method TerminalizeJob(id: JobId, target: Status, now: int) returns (answer: Answer)
      requires Valid()
      modifies this`jobs
      ensures Valid() && View() == Fire(old(View()), id, Terminalize(target, now))
      ensures answer == Done(true) <==> Accepts(old(View()), id, Terminalize(target, now))
      ensures answer.Thrown? <==> target !in {FAILED, CANCELLED} || Throws(old(View()), id, Terminalize(target, now))
    {
      if target !in {FAILED, CANCELLED} {
        TerminalizeNeedsTarget(View(), id, target, now);
        return Thrown;
      }
      if id !in jobs || jobs[id].status in TERMINAL {
        return Done(false);
      }
      if target !in Allowed(jobs[id].status) {
        return Thrown;
      }
      var job := jobs[id].(status := target);
      job := job.(finishedAt := Some(now));
      job := job.(worker := None);
      job := job.(leaseExpires := None);
      job := job.(heartbeat := None);
      if target == FAILED {
        job := job.(failedAt := Some(now));
      }
      GroupSetsJob(jobs, outbox, id, job);
      jobs := jobs[id := job];
      return Done(true);
    }

    method RecoverExpiredLease(id: JobId, now: int, policy: RetryPolicy, jitter: int) returns (answer: Answer)
      requires Valid()
      modifies this
      ensures Valid() && View() == Fire(old(View()), id, Recover(now, policy, jitter))
      ensures answer == Done(true) <==> Accepts(old(View()), id, Recover(now, policy, jitter))
      ensures answer.Thrown? <==> Throws(old(View()), id, Recover(now, policy, jitter))
    {
      if id !in jobs || !jobs[id].Leased() {
        return Done(false);
      }
      var job := jobs[id];
      if job.leaseExpires.None? || job.leaseExpires.value > now {
        return Done(false);
      }
      if job.attempts >= job.maxAttempts {
        job := job.(worker := None);
        job := job.(leaseExpires := None);
        job := job.(heartbeat := None);
        job := job.(status := FAILED);
        job := job.(failedAt := Some(now));
        GroupSetsJob(jobs, outbox, id, job);
        jobs := jobs[id := job];
        return Done(true);
      }
      var delay := policy.Delay(job.attempts + 1, jitter);
      if delay.Err? {
        return Thrown;
      }
      Reschedule(id, now + delay.value);
      return Done(true);
    }

    /** Whatever event a caller fires, by its mutator; a publisher fires only for rows that are due. */
    method Mutate(id: JobId, ev: Event)
      requires Valid()
      modifies this
      ensures Valid() && View() == Fire(old(View()), id, ev)
    {
      if id in jobs {
        UpdateSame(View(), id);
      }
      match ev
      case EnsureOutbox =>
        if id in jobs {
          EnsureOutbox(id);
        }
      case Publish(k, now) =>
        if Due(outbox, (id, k), now) {
          var _ := MarkOutboxPublished(id, k, now);
        }
      case PublishFailure(k, now) =>
        if Due(outbox, (id, k), now) {
          RecordOutboxFailure(id, k, now);
        }
      case Claim(w, now, leaseSeconds) => var _ := ClaimJob(id, w, now, leaseSeconds);
      case Start(w, g, now) => var _ := StartJob(id, w, g, now);
      case Heartbeat(w, g, now, leaseSeconds) => var _ := HeartbeatJob(id, w, g, now, leaseSeconds);
      case Complete(w, g, now) => var _ := CompleteJob(id, w, g, now);
      case ScheduleRetry(w, g, when) => var _ := ScheduleRetry(id, w, g, when);
      case Fail(w, g, now) => var _ := FailJob(id, w, g, now);
      case Terminalize(target, now) => var _ := TerminalizeJob(id, target, now);
      case Recover(now, policy, jitter) => var _ := RecoverExpiredLease(id, now, policy, jitter);
    }

    /** `list_publishable_outbox`: the oldest of the due rows; `created` tells when each was inserted. */
    method ListPublishable(now: int, limit: nat, created: OutboxKey -> int, locked: set<OutboxKey>)
      returns (batch: seq<OutboxKey>)
      ensures FirstBy(batch, DueKeys(outbox, now, locked), limit, created)
      ensures |batch| <= limit && forall i :: 0 <= i < |batch| ==> Publishable(outbox, batch[i], now, locked)
      ensures forall key: OutboxKey :: Publishable(outbox, key, now, locked) && key !in batch ==>
                |batch| == limit && forall i :: 0 <= i < |batch| ==> created(batch[i]) <= created(key)
    {
      batch := TakeFirst(DueKeys(outbox, now, locked), limit, created);
      forall key: OutboxKey | Publishable(outbox, key, now, locked) && key !in batch
        ensures |batch| == limit && forall i :: 0 <= i < |batch| ==> created(batch[i]) <= created(key)
      {
        assert key in DueKeys(outbox, now, locked);
        if |batch| < limit {
          ShortListIsAll(batch, DueKeys(outbox, now, locked), limit, created);
        }
      }
    }

    method PublishOne(key: OutboxKey, sent: bool, now: int)
      requires Valid() && Due(outbox, key, now)
      modifies this
      ensures Valid() && View() == Fire(old(View()), key.0, Attempt(key.1, sent, now))
      ensures forall other: OutboxKey :: other != key && Due(old(outbox), other, now) ==> Due(outbox, other, now)
    {
      if sent {
        var answer := MarkOutboxPublished(key.0, key.1, now);
        assert answer.Done?;
      } else {
        RecordOutboxFailure(key.0, key.1, now);
      }
    }

    /**
     The loop of `publish_due`: one event per row, and the rows sent are counted. An exception
     the loop does not catch ends it, and the session that is never committed rolls back.
     */
    method PublishBatch(batch: seq<OutboxKey>, replies: seq<Broker>, now: int) returns (published: Option<nat>)
      requires Valid() && |replies| == |batch|
      requires forall i :: 0 <= i < |batch| ==> Due(outbox, batch[i], now)
      requires forall i, j :: 0 <= i < j < |batch| ==> batch[i] != batch[j]
      modifies this
      ensures Valid() && (published.None? <==> BROKEN in replies)
      ensures published.None? ==> View() == old(View())
      ensures published.Some? ==>
                && View() == PublishAll(old(View()), batch, Taken(replies), now)
                && published.value == Count(Taken(replies))
    {
      var jobs0, outbox0, sent := jobs, outbox, Taken(replies);
      ghost var here, after, total := View(), PublishAll(View(), batch, sent, now), Count(sent);
      var count, i := 0, 0;
      assert batch[0..] == batch && sent[0..] == sent;
      while i < |batch|
        invariant 0 <= i <= |batch| && Valid() && View() == here && DueFrom(outbox, batch, i, now)
        invariant BROKEN !in replies[..i]
        invariant PublishAll(here, batch[i..], sent[i..], now) == after && count + Count(sent[i..]) == total
      {
        if replies[i] == BROKEN {
          jobs, outbox := jobs0, outbox0;
          return None;
        }
        ghost var before := outbox;
        OneMoreRow(here, batch, sent, now, i);
        PublishOne(batch[i], sent[i], now);
        here := Fire(here, batch[i].0, Attempt(batch[i].1, sent[i], now));
        DueStays(before, outbox, batch, i, now);
        count := count + if sent[i] then 1 else 0;
        i := i + 1;
      }
      assert batch[i..] == [] && sent[i..] == [] && replies[..i] == replies;
      return Some(count);
    }

    /** `publish_due` with the commit of its caller; `broker` says what it does with each message. */
    method PublishDue(now: int, limit: nat, created: OutboxKey -> int, locked: set<OutboxKey>,
                      broker: OutboxKey -> Broker)
      returns (published: Option<nat>, ghost batch: seq<OutboxKey>)
      requires Valid()
      modifies this
      ensures Valid() && FirstBy(batch, DueKeys(old(outbox), now, locked), limit, created)
      ensures published.None? <==> BROKEN in Replies(batch, broker)
      ensures published.None? ==> View() == old(View())
      ensures published.Some? ==>
                && View() == PublishAll(old(View()), batch, Taken(Replies(batch, broker)), now)
                && published.value == |TakenAt(batch, broker)|
    {
      var listed := ListPublishable(now, limit, created, locked);
      batch := listed;
      assert forall i :: 0 <= i < |listed| ==> listed[i] in DueKeys(outbox, now, locked);
      published := PublishBatch(listed, Replies(listed, broker), now);
      CountsTaken(listed, broker);
    }
  }

  /** The broker takes a message, raises one of the three exceptions `publish_due` catches, or another one. */
  datatype Broker = TAKEN | UNAVAILABLE | BROKEN

  function Replies(batch: seq<OutboxKey>, broker: OutboxKey -> Broker): seq<Broker> {
    seq(|batch|, i requires 0 <= i < |batch| => broker(batch[i]))
  }

  function Taken(replies: seq<Broker>): seq<bool> {
    seq(|replies|, i requires 0 <= i < |replies| => replies[i] == TAKEN)
  }

  /** The event the publisher fires for one row. */
  function Attempt(k: nat, sent: bool, now: int): Event {
    if sent then Publish(k, now) else PublishFailure(k, now)
  }

  function PublishAll(ledger: Ledger, batch: seq<OutboxKey>, sent: seq<bool>, now: int): Ledger
    requires |sent| == |batch|
    decreases |batch|
  {
    if batch == [] then ledger else
    PublishAll(Fire(ledger, batch[0].0, Attempt(batch[0].1, sent[0], now)), batch[1..], sent[1..], now)
  }

  function Count(sent: seq<bool>): nat
    decreases |sent|
  {
    if sent == [] then 0 else (if sent[0] then 1 else 0) + Count(sent[1..])
  }

  /** Which messages of the batch the broker takes. */
  ghost function TakenAt(batch: seq<OutboxKey>, broker: OutboxKey -> Broker): set<int> {
    set i | 0 <= i < |batch| && broker(batch[i]) == TAKEN
  }

  ghost function TrueAt(sent: seq<bool>): set<int> {
    set i | 0 <= i < |sent| && sent[i]
  }

  lemma {:induction false} CountLast(sent: seq<bool>, last: bool)
    ensures Count(sent + [last]) == Count(sent) + if last then 1 else 0
    decreases |sent|
  {
    if sent == [] {
      assert sent + [last] == [last];
    } else {
      assert (sent + [last])[1..] == sent[1..] + [last];
      CountLast(sent[1..], last);
    }
  }

  lemma TrueAtLast(front: seq<bool>, last: bool)
    ensures |TrueAt(front + [last])| == |TrueAt(front)| + if last then 1 else 0
  {
    assert TrueAt(front + [last]) == TrueAt(front) + if last then {|front|} else {};
  }

  lemma {:induction false} CountIsNumber(sent: seq<bool>)
    ensures Count(sent) == |TrueAt(sent)|
    decreases |sent|
  {
    if sent != [] {
      var front, last := sent[..|sent| - 1], sent[|sent| - 1];
      assert sent == front + [last];
      CountIsNumber(front);
      CountLast(front, last);
      TrueAtLast(front, last);
    }
  }

  /** What the loop counts is the number of messages the broker took. */
  lemma CountsTaken(batch: seq<OutboxKey>, broker: OutboxKey -> Broker)
    ensures Count(Taken(Replies(batch, broker))) == |TakenAt(batch, broker)|
  {
    CountIsNumber(Taken(Replies(batch, broker)));
    assert TrueAt(Taken(Replies(batch, broker))) == TakenAt(batch, broker);
  }

  ghost predicate DueFrom(outbox: Outbox, batch: seq<OutboxKey>, i: nat, now: int) {
    forall k :: i <= k < |batch| ==> Due(outbox, batch[k], now)
  }

  lemma DueStays(outbox: Outbox, outbox': Outbox, batch: seq<OutboxKey>, i: nat, now: int)
    requires i < |batch| && DueFrom(outbox, batch, i, now)
    requires forall j, k :: 0 <= j < k < |batch| ==> batch[j] != batch[k]
    requires forall other: OutboxKey :: other != batch[i] && Due(outbox, other, now) ==> Due(outbox', other, now)
    ensures DueFrom(outbox', batch, i + 1, now)
  {
  }

  lemma OneMoreRow(ledger: Ledger, batch: seq<OutboxKey>, sent: seq<bool>, now: int, i: nat)
    requires |sent| == |batch| && i < |batch|
    ensures PublishAll(ledger, batch[i..], sent[i..], now)
            == PublishAll(Fire(ledger, batch[i].0, Attempt(batch[i].1, sent[i], now)),
                          batch[i + 1..], sent[i + 1..], now)
    ensures Count(sent[i..]) == (if sent[i] then 1 else 0) + Count(sent[i + 1..])
  {
    assert batch[i..][1..] == batch[i + 1..] && sent[i..][1..] == sent[i + 1..];
  }

  ghost predicate LawfulLedger(ledger: Ledger) {
    forall id :: id in ledger ==> Lawful(ledger[id])
  }

  lemma FireLawful(ledger: Ledger, id: JobId, ev: Event)
    requires LawfulLedger(ledger)
    ensures LawfulLedger(Fire(ledger, id, ev))
  {
    if id in ledger {
      StepLawful(ledger[id], ev);
    }
  }

  function Row(ledger: Ledger, key: OutboxKey): Option<OutboxRow> {
    if key.0 in ledger && key.1 in ledger[key.0].outbox then Some(ledger[key.0].outbox[key.1]) else None
  }

  lemma AttemptTouchesItsRow(ledger: Ledger, at: OutboxKey, sent: bool, now: int, key: OutboxKey)
    requires LawfulLedger(ledger)
    ensures var after := Fire(ledger, at.0, Attempt(at.1, sent, now));
            && (key != at ==> Row(after, key) == Row(ledger, key))
            && (key == at && Row(ledger, key).Some? && Row(ledger, key).value.Due(now) ==>
                  Row(after, key).Some? && (Row(after, key).value.published <==> sent))
  {
    if at.0 in ledger && at.1 in ledger[at.0].outbox {
      PublisherBackoff(ledger[at.0].outbox[at.1].attempts + 1);
    }
  }

  /** A batch leaves the ledger lawful and every row outside it as it was. */
  lemma {:induction false} BatchFrame(ledger: Ledger, batch: seq<OutboxKey>, sent: seq<bool>, now: int, key: OutboxKey)
    requires |sent| == |batch| && LawfulLedger(ledger)
    ensures LawfulLedger(PublishAll(ledger, batch, sent, now))
    ensures key !in batch ==> Row(PublishAll(ledger, batch, sent, now), key) == Row(ledger, key)
    decreases |batch|
  {
    if batch != [] {
      AttemptTouchesItsRow(ledger, batch[0], sent[0], now, key);
      FireLawful(ledger, batch[0].0, Attempt(batch[0].1, sent[0], now));
      BatchFrame(Fire(ledger, batch[0].0, Attempt(batch[0].1, sent[0], now)), batch[1..], sent[1..], now, key);
    }
  }

  /** After a batch of distinct due rows, row i is published exactly if the broker took its message. */
  lemma {:induction false} BatchOutcome(ledger: Ledger, batch: seq<OutboxKey>, sent: seq<bool>, now: int, i: nat)
    requires |sent| == |batch| && LawfulLedger(ledger) && i < |batch|
    requires forall j, k :: 0 <= j < k < |batch| ==> batch[j] != batch[k]
    requires Row(ledger, batch[i]).Some? && Row(ledger, batch[i]).value.Due(now)
    ensures var row := Row(PublishAll(ledger, batch, sent, now), batch[i]);
            row.Some? && (row.value.published <==> sent[i])
    decreases |batch|
  {
    var next := Fire(ledger, batch[0].0, Attempt(batch[0].1, sent[0], now));
    AttemptTouchesItsRow(ledger, batch[0], sent[0], now, batch[i]);
    FireLawful(ledger, batch[0].0, Attempt(batch[0].1, sent[0], now));
    if i == 0 {
      BatchFrame(next, batch[1..], sent[1..], now, batch[0]);
    } else {
      BatchOutcome(next, batch[1..], sent[1..], now, i - 1);
    }
  }

  /**
   One committed publishing round over a lawful ledger: a due row is published exactly if it
   is in the batch and the broker took its message. With fewer rows than the limit the batch
   is all of them.
   */
  lemma RoundPublishes(jobs: map<JobId, Job>, outbox: Outbox, now: int, limit: nat, created: OutboxKey -> int,
                       locked: set<OutboxKey>, broker: OutboxKey -> Broker, batch: seq<OutboxKey>, key: OutboxKey)
    requires outbox.Keys <= jobs.Keys && LawfulLedger(Group(jobs, outbox))
    requires FirstBy(batch, DueKeys(outbox, now, locked), limit, created) && key in DueKeys(outbox, now, locked)
    ensures var row := Row(PublishAll(Group(jobs, outbox), batch, Taken(Replies(batch, broker)), now), key);
            row.Some? && (row.value.published <==> key in batch && broker(key) == TAKEN)
    ensures |DueKeys(outbox, now, locked)| < limit ==> key in batch
  {
    var ledger, sent := Group(jobs, outbox), Taken(Replies(batch, broker));
    assert Row(ledger, key) == Some(outbox[key.0][key.1]);
    if key in batch {
      var i :| 0 <= i < |batch| && batch[i] == key;
      BatchOutcome(ledger, batch, sent, now, i);
    } else {
      BatchFrame(ledger, batch, sent, now, key);
    }
    if |DueKeys(outbox, now, locked)| < limit {
      ShortListIsAll(batch, DueKeys(outbox, now, locked), limit, created);
    }
  }
}
