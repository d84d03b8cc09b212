/** The job coordinator over all jobs (app/documents/jobs.py:48-605): reclaim first, then claim the oldest runnable job. */
module IngestionStore {
  import opened Options
  import opened Ingestion

  predicate AllReclaimed(was: map<string, Job>, jobs: map<string, Job>, done: set<string>, now: int, percent: map<string, int>)
    requires was.Keys == jobs.Keys == percent.Keys
  {
    forall id | id in was :: jobs[id] == if id in done then Reclaim(was[id], now, percent[id]) else was[id]
  }

  ghost predicate AllHold(jobs: map<string, Job>) {
    forall id | id in jobs :: Inv(jobs[id])
  }

  /** Reclaiming all of them, like any step of one of them, keeps every job lawful. */
  lemma ReclaimedHold(was: map<string, Job>, jobs: map<string, Job>, now: int, percent: map<string, int>)
    requires was.Keys == jobs.Keys == percent.Keys && AllReclaimed(was, jobs, jobs.Keys, now, percent) && AllHold(was)
    ensures AllHold(jobs)
  {
    forall id | id in jobs ensures Inv(jobs[id]) {
      StepKeeps(was[id], ReclaimStep(now, percent[id]));
    }
  }

  lemma StepHolds(jobs: map<string, Job>, id: string, step: Step)
    requires AllHold(jobs) && id in jobs
    ensures AllHold(jobs[id := Apply(jobs[id], step)])
  {
    StepKeeps(jobs[id], step);
  }

  /** The job may be claimed by a caller who asks for any job, or for this one. */
  predicate Eligible(jobs: map<string, Job>, id: string, now: int, only: Option<string>) {
    id in jobs && Runnable(jobs[id], now) && (only.None? || only.value == id)
  }

  /** The oldest eligible job, by position in the queue. */
  predicate OldestEligible(jobs: map<string, Job>, queue: seq<string>, i: nat, now: int, only: Option<string>) {
    i < |queue| && Eligible(jobs, queue[i], now, only) && forall k :: 0 <= k < i ==> !Eligible(jobs, queue[k], now, only)
  }

  class JobsCoordinator {
    var jobs: map<string, Job>
    /** The jobs in order of creation. */
    var queue: seq<string>

    ghost predicate Valid()
      reads this
    {
      forall i :: 0 <= i < |queue| ==> queue[i] in jobs
    }

    constructor ()
      ensures Valid() && jobs == map[] && queue == []
    {
      jobs, queue := map[], [];
    }

    method CreateJob(id: string)
      requires Valid() && id !in jobs
      modifies this
      ensures Valid() && jobs == old(jobs)[id := NEW_JOB] && queue == old(queue) + [id]
    {
      jobs, queue := jobs[id := NEW_JOB], queue + [id];
    }

    /** `_reclaim_expired_attempts`; the spread of each delay is given. */
    method ReclaimExpired(now: int, percent: map<string, int>)
      requires Valid() && percent.Keys == jobs.Keys
      modifies this`jobs
      ensures Valid() && jobs.Keys == old(jobs).Keys
      ensures AllReclaimed(old(jobs), jobs, jobs.Keys, now, percent)
    {
      var todo := jobs.Keys;
      ghost var done: set<string> := {};
      while todo != {}
        invariant Valid() && jobs.Keys == old(jobs).Keys == todo + done && todo !! done
        invariant AllReclaimed(old(jobs), jobs, done, now, percent)
      {
        var id :| id in todo;
        jobs := jobs[id := Reclaim(jobs[id], now, percent[id])];
        todo, done := todo - {id}, done + {id};
      }
      assert done == jobs.Keys;
    }

    method FindRunnable(now: int, only: Option<string>) returns (found: Option<nat>)
      ensures found.Some? ==> OldestEligible(jobs, queue, found.value, now, only)
      ensures found.None? ==> forall k :: 0 <= k < |queue| ==> !Eligible(jobs, queue[k], now, only)
    {
      for i := 0 to |queue|
        invariant forall k :: 0 <= k < i ==> !Eligible(jobs, queue[k], now, only)
      {
        if Eligible(jobs, queue[i], now, only) {
          return Some(i);
        }
      }
      return None;
    }

    /** The second transaction of `claim`; None is the refusal when nothing is runnable. */
    method ClaimNext(worker: string, now: int, ttl: int, only: Option<string>) returns (found: Option<nat>, lease: Option<Lease>)
      requires Valid()
      modifies this`jobs
      ensures Valid() && (found.Some? <==> lease.Some?)
      ensures found.None? ==> jobs == old(jobs) && forall k :: 0 <= k < |queue| ==> !Eligible(jobs, queue[k], now, only)
      ensures found.Some? ==> OldestEligible(old(jobs), queue, found.value, now, only)
      ensures found.Some? ==> jobs == old(jobs)[queue[found.value] := Claim(old(jobs)[queue[found.value]], worker, now, ttl)]
      ensures found.Some? ==> Renewable(jobs[queue[found.value]], lease.value, worker, now + ttl - 1)
    {
      found := FindRunnable(now, only);
      if found.None? {
        return None, None;
      }
      var job := Claim(jobs[queue[found.value]], worker, now, ttl);
      jobs := jobs[queue[found.value] := job];
      lease := Some(LeaseOf(job));
    }

    /** `renew`: None when the lease is no longer the job's current one. */
    method RenewLease(id: string, lease: Lease, owner: string, now: int, ttl: int) returns (renewed: Option<Lease>)
      requires Valid() && id in jobs
      modifies this`jobs
      ensures Valid() && jobs == old(jobs)[id := Renew(old(jobs)[id], lease, owner, now, ttl)]
      ensures renewed == if Renewable(old(jobs)[id], lease, owner, now) then Some(lease.(owner := owner, expires := now + ttl)) else None
    {
      if !Renewable(jobs[id], lease, owner, now) {
        assert jobs == jobs[id := jobs[id]];
        return None;
      }
      jobs := jobs[id := Renew(jobs[id], lease, owner, now, ttl)];
      renewed := Some(lease.(owner := owner, expires := now + ttl));
    }

    /** Success, failure, cancellation, replay or deletion of one job. */
    method ApplyStep(id: string, step: Step)
      requires Valid() && id in jobs
      modifies this`jobs
      ensures Valid() && jobs == old(jobs)[id := Apply(old(jobs)[id], step)]
    {
      jobs := jobs[id := Apply(jobs[id], step)];
    }
  }
}
