/** The job table as the lease methods update it (packages/coordinator/lease.go:47-191). */
module JobTable {
  import opened Base
  import opened Jobs

  const RECLAIM_BATCH: nat := 100

  class JobStore {
    var jobs: seq<Job>

    constructor ()
      ensures jobs == []
    {
      jobs := [];
    }

    /** The new fence, or None where the job cannot be claimed. */
    method ClaimJob(j: nat) returns (fence: Option<nat>)
      modifies this
      ensures fence.Some? <==> j < |old(jobs)| && Claimable(old(jobs)[j])
      ensures fence.Some? <==> j < |old(jobs)| && (old(jobs)[j].status.Queued?
                                                   || (old(jobs)[j].status.Running? && old(jobs)[j].lapsed))
      ensures fence.Some? ==> |jobs| == |old(jobs)| && jobs[j].status.Running? && !jobs[j].lapsed
                              && jobs[j].fence == fence.value && jobs[j].count == old(jobs)[j].count + 1
      ensures fence.Some? ==> jobs == old(jobs)[j := Claimed(old(jobs)[j])] && Holds(jobs[j], fence.value)
                              && fence.value == old(jobs)[j].fence + 1
      ensures fence.None? ==> jobs == old(jobs)
    {
      if j >= |jobs| || !(jobs[j].status.Queued? || (jobs[j].status.Running? && jobs[j].lapsed)) { return None; }
      var job := jobs[j];
      var before := if job.status.Running? then Marked(job.claims, Lost) else job.claims;
      jobs := jobs[j := job.(status := Running, lapsed := false, fence := job.fence + 1, count := job.count + 1,
                             claims := before + [Claim(Open, false)])];
      return Some(job.fence + 1);
    }

    /** ErrStaleFence exactly when the claim is not the running holder, and then nothing is renewed. */
    method Heartbeat(j: nat, fence: nat) returns (stale: bool)
      modifies this
      ensures stale <==> !(j < |old(jobs)| && Holds(old(jobs)[j], fence))
      ensures jobs == if stale then old(jobs) else old(jobs)[j := Heartbeaten(old(jobs)[j], fence)]
      ensures stale <==> !(j < |old(jobs)| && old(jobs)[j].status.Running? && old(jobs)[j].fence == fence)
      ensures !stale ==> jobs == old(jobs)[j := old(jobs)[j].(lapsed := false)]
    {
      if j >= |jobs| || !jobs[j].status.Running? || jobs[j].fence != fence { return true; }
      jobs := jobs[j := jobs[j].(lapsed := false)];
      return false;
    }

    /** None is ErrStaleFence; otherwise whether the job was dead-lettered, which the row's own count
        decides. */
    method Fail(j: nat, fence: nat, max: nat) returns (dead: Option<bool>)
      modifies this
      ensures dead.None? <==> !(j < |old(jobs)| && Holds(old(jobs)[j], fence))
      ensures dead.None? ==> jobs == old(jobs)
      ensures dead.Some? ==> jobs == old(jobs)[j := FailedAt(old(jobs)[j], fence, max)]
      ensures dead.Some? ==> (dead.value <==> old(jobs)[j].count >= max) && (jobs[j].status.Dead? <==> dead.value)
      ensures dead.Some? ==> jobs[j] == old(jobs)[j].(status := if dead.value then Dead else Queued,
                                                      claims := jobs[j].claims)
    {
      if j >= |jobs| || !jobs[j].status.Running? || jobs[j].fence != fence { return None; }
      var job := jobs[j];
      var status := if job.count >= max then Dead else Queued;
      jobs := jobs[j := job.(status := status, claims := Marked(job.claims, Failed))];
      return Some(status.Dead?);
    }

    method RequeueSoft(j: nat, fence: nat) returns (stale: bool)
      modifies this
      ensures stale <==> !(j < |old(jobs)| && Holds(old(jobs)[j], fence))
      ensures jobs == if stale then old(jobs) else old(jobs)[j := RequeuedSoft(old(jobs)[j], fence)]
      ensures !stale ==> jobs[j].status.Queued? && jobs[j].fence == old(jobs)[j].fence
                         && jobs[j].count == if old(jobs)[j].count > 0 then old(jobs)[j].count - 1 else 0
    {
      if j >= |jobs| || !jobs[j].status.Running? || jobs[j].fence != fence { return true; }
      var job := jobs[j];
      var count := if job.count - 1 < 0 then 0 else job.count - 1;
      jobs := jobs[j := job.(status := Queued, count := count, claims := Marked(job.claims, Soft))];
      return false;
    }

    /** One bounded sweep; SweepSound says what it leaves. */
    method ReclaimExpired(max: nat) returns (n: nat)
      modifies this
      ensures (jobs, n) == Sweep(old(jobs), max, RECLAIM_BATCH)
      ensures |jobs| == |old(jobs)| && n <= RECLAIM_BATCH
      ensures forall i :: 0 <= i < |jobs| && jobs[i] != old(jobs)[i] ==>
                old(jobs)[i].status.Running? && old(jobs)[i].lapsed && old(jobs)[i].count >= max
                && jobs[i].status.Dead?
      ensures n < RECLAIM_BATCH ==>
                forall i :: 0 <= i < |jobs| ==> !(jobs[i].status.Running? && jobs[i].lapsed && jobs[i].count >= max)
      ensures n == |set i | 0 <= i < |jobs| && jobs[i] != old(jobs)[i]|
    {
      n := 0;
      var swept: seq<Job> := [];
      for i := 0 to |jobs|
        invariant jobs == old(jobs) && (swept, n) == Sweep(jobs[..i], max, RECLAIM_BATCH)
      {
        assert jobs[..i + 1][..i] == jobs[..i];
        if n < RECLAIM_BATCH && Abandoned(jobs[i], max) {
          swept := swept + [Reclaimed(jobs[i], max)];
          n := n + 1;
        } else {
          swept := swept + [jobs[i]];
        }
      }
      assert jobs[..|jobs|] == jobs;
      SweepSound(jobs, max, RECLAIM_BATCH);
      jobs := swept;
      assert Changed(old(jobs), jobs) == set i | 0 <= i < |jobs| && jobs[i] != old(jobs)[i];
    }
  }

  function Sweep(jobs: seq<Job>, max: nat, room: nat): (seq<Job>, nat) {
    if jobs == [] then ([], 0)
    else
      var last := jobs[|jobs| - 1];
      var (before, n) := Sweep(jobs[..|jobs| - 1], max, room);
      if n < room && Abandoned(last, max) then (before + [Reclaimed(last, max)], n + 1) else (before + [last], n)
  }

  function Changed(was: seq<Job>, now: seq<Job>): set<nat>
    requires |was| == |now|
  {
    set i | 0 <= i < |was| && now[i] != was[i]
  }

  predicate Lapsed(j: Job, max: nat) {
    j.status.Running? && j.lapsed && j.count >= max
  }

  /** What a sweep does to one job: nothing, or it dies of a lapsed lease with its attempts used up. */
  predicate LeftOrDead(was: Job, now: Job, max: nat) {
    now == was || (Lapsed(was, max) && now == was.(status := Dead, claims := now.claims))
  }

  lemma ReclaimedIsDead(j: Job, max: nat)
    ensures Abandoned(j, max) <==> Lapsed(j, max)
    ensures Abandoned(j, max) ==> LeftOrDead(j, Reclaimed(j, max), max) && Reclaimed(j, max) != j
  {
  }

  lemma ChangedNext(was: seq<Job>, now: seq<Job>, a: Job, b: Job)
    requires |was| == |now|
    ensures |Changed(was + [a], now + [b])| == |Changed(was, now)| + (if a == b then 0 else 1)
  {
    var next := Changed(was + [a], now + [b]);
    if a == b {
      assert next == Changed(was, now);
    } else {
      assert next == Changed(was, now) + {|was|};
    }
  }

  /** A job changes only by dying, and only if its lease had lapsed with its attempts used up; at most `room`
      do, the number is how many, and a sweep that had room to spare left no such job. */
  lemma {:induction false} SweepSound(jobs: seq<Job>, max: nat, room: nat)
    ensures var (swept, n) := Sweep(jobs, max, room);
      && |swept| == |jobs| && n <= room && n == |Changed(jobs, swept)|
      && (forall i :: 0 <= i < |jobs| ==> LeftOrDead(jobs[i], swept[i], max))
      && (n < room ==> forall i :: 0 <= i < |jobs| ==> !Lapsed(swept[i], max))
  {
    if jobs != [] {
      var k := |jobs| - 1;
      SweepSound(jobs[..k], max, room);
      ReclaimedIsDead(jobs[k], max);
      var (before, m) := Sweep(jobs[..k], max, room);
      var (swept, n) := Sweep(jobs, max, room);
      assert jobs == jobs[..k] + [jobs[k]] && swept == before + [swept[k]];
      ChangedNext(jobs[..k], before, jobs[k], swept[k]);
    }
  }
}
