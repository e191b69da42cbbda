/**
 What the length of a lease means to those who look at it: the sweep, the recovery, the
 heartbeat and the finalizing write all agree on the second at which it ends.
 */
module Leases {
  import opened Common
  import opened Retry
  import opened FullGame
  import opened JobLifecycle
  import opened JobTable
  import opened JobEffects
  import opened Release
  import W = Worker

  /** The row after a claim at `now` and these events. */
  function Claimed(e: Entry, worker: WorkerId, now: int, leaseSeconds: int, evs: seq<Event>): Entry {
    Run(After(e, Claim(worker, now, leaseSeconds)), evs)
  }

  /** The sweep lists the job, and the recovery takes its lease, exactly from `now + leaseSeconds` on. */
  lemma RunsOutOnTime(db: Ledger, id: JobId, e: Entry, worker: WorkerId, now: int, leaseSeconds: int,
                      evs: seq<Event>, t: int, policy: RetryPolicy, jitter: int)
    requires e.job.status == QUEUED && Undisturbed(After(e, Claim(worker, now, leaseSeconds)), evs)
    requires id in db && db[id] == Claimed(e, worker, now, leaseSeconds, evs)
    ensures W.LeaseRanOut(db, id, t) <==> t >= now + leaseSeconds
    ensures Decide(db[id], Recover(t, policy, jitter)).Refused? <==> t < now + leaseSeconds
  {
    LeaseLasts(e, worker, now, leaseSeconds, evs, t);
    RecoverExactly(db[id], t, policy, jitter);
  }

  /** Until then, and no longer, its own worker can renew it, and nobody else ever can. */
  lemma RenewableInTime(e: Entry, worker: WorkerId, now: int, leaseSeconds: int, evs: seq<Event>,
                        other: WorkerId, g: nat, t: int, more: int)
    requires e.job.status == QUEUED && Undisturbed(After(e, Claim(worker, now, leaseSeconds)), evs)
    ensures Decide(Claimed(e, worker, now, leaseSeconds, evs), Heartbeat(other, g, t, more)).Applied?
            <==> other == worker && g == e.job.generation + 1 && t < now + leaseSeconds
  {
    LeaseLasts(e, worker, now, leaseSeconds, evs, t);
    HeartbeatExactly(Claimed(e, worker, now, leaseSeconds, evs), other, g, t, more);
  }

  /** A result is accepted from its own worker, once started, exactly until then, for the job's own unpublished game. */
  lemma WritableInTime(r: Record, e: Entry, worker: WorkerId, now: int, leaseSeconds: int, evs: seq<Event>, w: Write)
    requires e.job.status == QUEUED && Undisturbed(After(e, Claim(worker, now, leaseSeconds)), evs)
    requires r.entry == Claimed(e, worker, now, leaseSeconds, evs)
    ensures MayWrite(r, w) <==>
            && r.entry.job.status == RUNNING && w.worker == worker && w.generation == e.job.generation + 1
            && w.finished < now + leaseSeconds
            && r.game.game == w.result.game && r.game.status in {FINISHED, DEEP_ANALYSIS_RUNNING} && r.game.verified
  {
    LeaseLasts(e, worker, now, leaseSeconds, evs, w.finished);
  }
}
