/** The retry budget of a durable job (packages/coordinator/lease.go, placement.go, storage/queries/jobs.sql):
    claims, failures, soft requeues, capacity parks and the wake that carries the count over. Workers run
    concurrently; a superseded one may still act. `fate`, `parked` and `prev` are history. */
module Jobs {
  import opened Base

  datatype Status = Queued | Running | Completed | Dead

  /** How a claim ended: still running, failed, lost (its lease lapsed and the job moved on), requeued
      without charge, or completed. */
  datatype Fate = Open | Failed | Lost | Soft | Done

  /** parked: the claim's attempt parked its run for want of a machine. */
  datatype Claim = Claim(fate: Fate, parked: bool)

  /** claims[k] was taken at fence k + 1. `seed` is the attempt_count the row was inserted with, and
      `prev` the job it was copied from. */
  datatype Job = Job(
    run: nat, status: Status, fence: nat, count: int, lapsed: bool, seed: nat, prev: Option<nat>, claims: seq<Claim>)

  /** A run as the queue sees it: waiting or not, the job whose attempt last left the awaiting_capacity
      marker, and its newest response.run job. */
  datatype Ticket = Ticket(waiting: bool, marker: Option<nat>, newest: Option<nat>)

  datatype Queue = Queue(jobs: seq<Job>, runs: map<nat, Ticket>)

  // --- the statements ------------------------------------------------------------------------

  function Greatest(a: int, b: int): int {
    if a < b then b else a
  }

  /** Fenced: the claim is the job's latest and the job is still running under it. */
  predicate Holds(j: Job, fence: nat) {
    j.status.Running? && j.fence == fence
  }

  function Marked(claims: seq<Claim>, fate: Fate): seq<Claim> {
    if claims == [] then claims
    else claims[|claims| - 1 := claims[|claims| - 1].(fate := fate)]
  }

  predicate Claimable(j: Job) {
    j.status.Queued? || (j.status.Running? && j.lapsed)
  }

  function Claimed(j: Job): Job {
    var before := if j.status.Running? then Marked(j.claims, Lost) else j.claims;
    j.(status := Running, lapsed := false, fence := j.fence + 1, count := j.count + 1,
       claims := before + [Claim(Open, false)])
  }

  function Heartbeaten(j: Job, fence: nat): Job {
    if Holds(j, fence) then j.(lapsed := false) else j
  }

  function FailedAt(j: Job, fence: nat, max: nat): Job {
    if Holds(j, fence)
    then j.(status := if j.count >= max then Dead else Queued, claims := Marked(j.claims, Failed))
    else j
  }

  function RequeuedSoft(j: Job, fence: nat): Job {
    if Holds(j, fence)
    then j.(status := Queued, count := Greatest(j.count - 1, 0), claims := Marked(j.claims, Soft))
    else j
  }

  function CompletedAt(j: Job, fence: nat): Job {
    if Holds(j, fence) then j.(status := Completed, claims := Marked(j.claims, Done)) else j
  }

  predicate Abandoned(j: Job, max: nat) {
    j.status.Running? && j.lapsed && j.count >= max
  }

  function Reclaimed(j: Job, max: nat): Job {
    if Abandoned(j, max) then j.(status := Dead, claims := Marked(j.claims, Lost)) else j
  }

  /** RefundCapacityParkAttempt names the job and checks neither its status nor a fence. */
  function Refunded(j: Job, k: nat): Job
    requires k < |j.claims|
  {
    j.(count := Greatest(j.count - 1, 0), claims := j.claims[k := j.claims[k].(parked := true)])
  }

  function Fresh(run: nat): Job {
    Job(run, Queued, 0, 0, false, 0, None, [])
  }

  /** EnqueueWokenRunJob: seeded with the count of the run's newest job, zero when it has none. */
  function Woken(q: Queue, run: nat): Job
    requires run in q.runs && (q.runs[run].newest.Some? ==> q.runs[run].newest.value < |q.jobs|)
  {
    match q.runs[run].newest
    case None => Fresh(run)
    case Some(p) =>
      var carried := Greatest(q.jobs[p].count, 0);
      Fresh(run).(count := carried, seed := carried, prev := Some(p))
  }

  // --- steps ---------------------------------------------------------------------------------

  /** What a worker or the reconciler does to one job row. */
  datatype Deed =
    | TakeJob
    | Lapse
    | Heartbeat(fence: nat)
    | Fail(fence: nat)
    | RequeueSoft(fence: nat)
    | Complete(fence: nat)
    | ReclaimExpired

  datatype Action =
    | Admit(run: nat)
    | Enqueue(run: nat)
    | Work(j: nat, deed: Deed)
    | RecordAttempt(run: nat)
    | Suspend(run: nat)
    | Park(j: nat, k: nat)
    | Wake(run: nat)

  predicate HasClaim(job: Job, fence: nat) {
    1 <= fence <= |job.claims|
  }

  /** A handler reports one outcome for its claim, and neither a failure nor a soft requeue once it has
      parked. Whether the claim is still the job's latest is not its concern: the statements fence. */
  predicate CanWork(job: Job, deed: Deed) {
    match deed
    case TakeJob => Claimable(job)
    case Lapse => true
    case Heartbeat(fence) => HasClaim(job, fence)
    case Fail(fence) => HasClaim(job, fence) && !job.claims[fence - 1].parked
    case RequeueSoft(fence) => HasClaim(job, fence) && !job.claims[fence - 1].parked
    case Complete(fence) => HasClaim(job, fence)
    case ReclaimExpired => true
  }

  function Worked(job: Job, deed: Deed, max: nat): Job {
    match deed
    case TakeJob => Claimed(job)
    case Lapse => job.(lapsed := true)
    case Heartbeat(fence) => Heartbeaten(job, fence)
    case Fail(fence) => FailedAt(job, fence, max)
    case RequeueSoft(fence) => RequeuedSoft(job, fence)
    case Complete(fence) => CompletedAt(job, fence)
    case ReclaimExpired => Reclaimed(job, max)
  }

  /** An attempt parks while it runs; it may not know that its claim was lost. */
  predicate CanPark(job: Job, k: nat) {
    k < |job.claims| && !job.claims[k].parked && (job.claims[k].fate.Open? || job.claims[k].fate.Lost?)
  }

  predicate Can(q: Queue, a: Action) {
    match a
    case Admit(run) => run !in q.runs
    case Enqueue(run) => run in q.runs
    case Work(j, deed) => j < |q.jobs| && CanWork(q.jobs[j], deed)
    case RecordAttempt(run) => run in q.runs
    case Suspend(run) => run in q.runs
    case Park(j, k) =>
      j < |q.jobs| && CanPark(q.jobs[j], k) && q.jobs[j].run in q.runs && !q.runs[q.jobs[j].run].waiting
    case Wake(run) => run in q.runs && q.runs[run].waiting && q.runs[run].marker.Some?
                      && (q.runs[run].newest.Some? ==> q.runs[run].newest.value < |q.jobs|)
  }

  function Added(q: Queue, job: Job): Queue
    requires job.run in q.runs
  {
    Queue(q.jobs + [job],
          q.runs[job.run := q.runs[job.run].(waiting := false, newest := Some(|q.jobs|))])
  }

  function Parked(q: Queue, j: nat, k: nat): Queue
    requires Can(q, Park(j, k))
  {
    var run := q.jobs[j].run;
    Queue(q.jobs[j := Refunded(q.jobs[j], k)],
          q.runs[run := q.runs[run].(waiting := true, marker := Some(j))])
  }

  function Do(q: Queue, a: Action, max: nat): Queue
    requires Can(q, a)
  {
    match a
    case Admit(run) => q.(runs := q.runs[run := Ticket(false, None, None)])
    case Enqueue(run) => Added(q, Fresh(run))
    case Work(j, deed) => q.(jobs := q.jobs[j := Worked(q.jobs[j], deed, max)])
    case RecordAttempt(run) => q.(runs := q.runs[run := q.runs[run].(marker := None)])
    case Suspend(run) => q.(runs := q.runs[run := q.runs[run].(waiting := true)])
    case Park(j, k) => Parked(q, j, k)
    case Wake(run) => Added(q, Woken(q, run))
  }

  // --- counting claims -----------------------------------------------------------------------

  function One(b: bool): nat {
    if b then 1 else 0
  }

  predicate Free(c: Claim) {
    c.fate.Soft? || c.parked
  }

  predicate Burned(c: Claim) {
    c.fate.Failed? || c.fate.Lost?
  }

  /** Claims that were given back: soft requeues and capacity parks. */
  function Refunds(claims: seq<Claim>): nat {
    if claims == [] then 0 else Refunds(claims[..|claims| - 1]) + One(Free(claims[|claims| - 1]))
  }

  /** Claims that failed or were lost. */
  function Burns(claims: seq<Claim>): nat {
    if claims == [] then 0 else Burns(claims[..|claims| - 1]) + One(Burned(claims[|claims| - 1]))
  }

  lemma {:induction false} CountsUpdate(claims: seq<Claim>, k: nat, c: Claim)
    requires k < |claims|
    ensures Refunds(claims[k := c]) == Refunds(claims) - One(Free(claims[k])) + One(Free(c))
    ensures Burns(claims[k := c]) == Burns(claims) - One(Burned(claims[k])) + One(Burned(c))
  {
    var n := |claims| - 1;
    if k == n {
      assert claims[k := c][..n] == claims[..n];
    } else {
      assert claims[k := c][..n] == claims[..n][k := c];
      CountsUpdate(claims[..n], k, c);
    }
  }

  lemma CountsAppend(claims: seq<Claim>, c: Claim)
    ensures Refunds(claims + [c]) == Refunds(claims) + One(Free(c))
    ensures Burns(claims + [c]) == Burns(claims) + One(Burned(c))
  {
    assert (claims + [c])[..|claims|] == claims;
  }

  /** Claims taken less refunds never exceed the failures and losses by more than the one still open. */
  lemma {:induction false} RefundsBelow(claims: seq<Claim>)
    ensures Refunds(claims) <= |claims|
  {
    if claims != [] { RefundsBelow(claims[..|claims| - 1]); }
  }

  /** A claim that another followed ended as a failure, a loss or a soft requeue. */
  predicate Past(c: Claim) {
    c.fate.Failed? || c.fate.Lost? || c.fate.Soft?
  }

  predicate NeverBoth(c: Claim) {
    c.parked ==> !c.fate.Soft? && !c.fate.Failed?
  }

  lemma {:induction false} PastCharges(claims: seq<Claim>)
    requires forall i :: 0 <= i < |claims| ==> Past(claims[i]) && NeverBoth(claims[i])
    ensures |claims| - Refunds(claims) <= Burns(claims)
    ensures HasPark(claims) <==> |claims| - Refunds(claims) < Burns(claims)
  {
    if claims != [] {
      var n := |claims| - 1;
      PastCharges(claims[..n]);
      if HasPark(claims[..n]) {
        var i :| 0 <= i < n && claims[..n][i].parked;
        assert claims[i].parked;
      }
      if i :| 0 <= i < |claims| && claims[i].parked && i < n {
        assert claims[..n][i].parked;
      }
    }
  }

  // --- what every job keeps ------------------------------------------------------------------

  predicate Shaped(j: Job) {
    && j.fence == |j.claims|
    && (forall i :: 0 <= i < |j.claims| ==> NeverBoth(j.claims[i]))
    && (forall i :: 0 <= i < |j.claims| - 1 ==> Past(j.claims[i]))
    && match j.status
       case Queued => j.claims == [] || j.claims[|j.claims| - 1].fate in {Failed, Soft}
       case Running => j.claims != [] && j.claims[|j.claims| - 1].fate.Open?
       case Completed => j.claims != [] && j.claims[|j.claims| - 1].fate.Done?
       case Dead => j.claims != [] && j.claims[|j.claims| - 1].fate in {Failed, Lost}
  }

  /** The law of the budget: what a job has spent is its seed, plus its claims, less its soft requeues
      and its capacity parks. */
  predicate Conserved(j: Job) {
    j.count == j.seed + |j.claims| - Refunds(j.claims)
  }

  predicate JobSound(j: Job) {
    Shaped(j) && Conserved(j)
  }

  lemma ClaimSound(j: Job)
    requires JobSound(j) && Claimable(j)
    ensures JobSound(Claimed(j))
  {
    var before := if j.status.Running? then Marked(j.claims, Lost) else j.claims;
    if j.status.Running? { CountsUpdate(j.claims, |j.claims| - 1, j.claims[|j.claims| - 1].(fate := Lost)); }
    CountsAppend(before, Claim(Open, false));
  }

  lemma LastMarked(j: Job, fate: Fate)
    requires Shaped(j) && j.status.Running?
    ensures var after := Marked(j.claims, fate); var last := |j.claims| - 1;
      && |after| == |j.claims| && after[last] == j.claims[last].(fate := fate)
      && Refunds(after) == Refunds(j.claims) + One(fate.Soft? && !j.claims[last].parked)
      && Refunds(after) <= |after|
  {
    var last := |j.claims| - 1;
    CountsUpdate(j.claims, last, j.claims[last].(fate := fate));
    RefundsBelow(Marked(j.claims, fate));
  }

  lemma CompleteSound(j: Job, fence: nat)
    requires JobSound(j)
    ensures JobSound(CompletedAt(j, fence))
  {
    if Holds(j, fence) { LastMarked(j, Done); }
  }

  lemma ReclaimSound(j: Job, max: nat)
    requires JobSound(j)
    ensures JobSound(Reclaimed(j, max))
  {
    if Abandoned(j, max) { LastMarked(j, Lost); }
  }

  lemma FailSound(j: Job, fence: nat, max: nat)
    requires JobSound(j) && 1 <= fence <= |j.claims| && !j.claims[fence - 1].parked
    ensures JobSound(FailedAt(j, fence, max))
  {
    if Holds(j, fence) { LastMarked(j, Failed); }
  }

  lemma SoftSound(j: Job, fence: nat)
    requires JobSound(j) && 1 <= fence <= |j.claims| && !j.claims[fence - 1].parked
    ensures JobSound(RequeuedSoft(j, fence))
  {
    if Holds(j, fence) { LastMarked(j, Soft); }
  }

  /** The floor under the refund is never reached: the claim being given back was counted. */
  lemma ParkSound(j: Job, k: nat)
    requires JobSound(j) && CanPark(j, k)
    ensures JobSound(Refunded(j, k)) && j.count >= 1
  {
    CountsUpdate(j.claims, k, j.claims[k].(parked := true));
    RefundsBelow(j.claims[k := j.claims[k].(parked := true)]);
  }

  lemma WorkSound(j: Job, deed: Deed, max: nat)
    requires JobSound(j) && CanWork(j, deed)
    ensures JobSound(Worked(j, deed, max))
  {
    match deed
    case TakeJob => ClaimSound(j);
    case Fail(fence) => FailSound(j, fence, max);
    case RequeueSoft(fence) => SoftSound(j, fence);
    case Complete(fence) => CompleteSound(j, fence);
    case ReclaimExpired => ReclaimSound(j, max);
    case _ =>
  }

  /** Fenced statements from a claim that is not the running holder leave the job as it is. A park's
      refund is not one of them: see StaleMarkerOvercharges. */
  lemma SupersededChangesNothing(q: Queue, j: nat, fence: nat, max: nat, deed: Deed)
    requires j < |q.jobs| && CanWork(q.jobs[j], deed) && !Holds(q.jobs[j], fence)
    requires deed in {Heartbeat(fence), Fail(fence), RequeueSoft(fence), Complete(fence)}
    ensures Do(q, Work(j, deed), max) == q
  {
    assert q.jobs[j := q.jobs[j]] == q.jobs;
  }

  // --- one job, one step ---------------------------------------------------------------------

  predicate HasPark(claims: seq<Claim>) {
    exists k :: 0 <= k < |claims| && claims[k].parked
  }

  /** What no step ever takes back from a job. */
  predicate Follows(was: Job, now: Job) {
    && now.run == was.run && now.prev == was.prev && now.seed == was.seed
    && Burns(now.claims) >= Burns(was.claims)
    && (HasPark(was.claims) ==> HasPark(now.claims))
  }

  lemma MarkedFollows(claims: seq<Claim>, fate: Fate)
    requires claims != [] && claims[|claims| - 1].fate.Open?
    ensures Burns(Marked(claims, fate)) >= Burns(claims)
    ensures HasPark(claims) ==> HasPark(Marked(claims, fate))
  {
    var last := |claims| - 1;
    CountsUpdate(claims, last, claims[last].(fate := fate));
    if k :| 0 <= k < |claims| && claims[k].parked { assert Marked(claims, fate)[k].parked; }
  }

  lemma AppendFollows(claims: seq<Claim>, c: Claim)
    ensures Burns(claims + [c]) >= Burns(claims)
    ensures HasPark(claims) ==> HasPark(claims + [c])
  {
    CountsAppend(claims, c);
    if k :| 0 <= k < |claims| && claims[k].parked { assert (claims + [c])[k].parked; }
  }

  lemma WorkFollows(j: Job, deed: Deed, max: nat)
    requires JobSound(j) && CanWork(j, deed)
    ensures Follows(j, Worked(j, deed, max))
  {
    if j.status.Running? {
      match deed
      case TakeJob =>
        MarkedFollows(j.claims, Lost);
        AppendFollows(Marked(j.claims, Lost), Claim(Open, false));
      case Fail(_) => MarkedFollows(j.claims, Failed);
      case RequeueSoft(_) => MarkedFollows(j.claims, Soft);
      case Complete(_) => MarkedFollows(j.claims, Done);
      case ReclaimExpired => MarkedFollows(j.claims, Lost);
      case _ =>
    } else if deed.TakeJob? {
      AppendFollows(j.claims, Claim(Open, false));
    }
  }

  lemma ParkFollows(j: Job, k: nat)
    requires JobSound(j) && CanPark(j, k)
    ensures Follows(j, Refunded(j, k)) && HasPark(Refunded(j, k).claims)
  {
    CountsUpdate(j.claims, k, j.claims[k].(parked := true));
    assert Refunded(j, k).claims[k].parked;
  }

  // --- the queue -----------------------------------------------------------------------------

  predicate PlaceSound(q: Queue, j: nat)
    requires j < |q.jobs|
  {
    && JobSound(q.jobs[j]) && q.jobs[j].run in q.runs
    && (if q.jobs[j].prev.Some? then q.jobs[j].prev.value < j else q.jobs[j].seed == 0)
  }

  predicate JobsSound(q: Queue) {
    forall j :: 0 <= j < |q.jobs| ==> PlaceSound(q, j)
  }

  predicate TicketSound(q: Queue, run: nat)
    requires run in q.runs
  {
    var t := q.runs[run];
    && (t.newest.Some? ==> t.newest.value < |q.jobs| && q.jobs[t.newest.value].run == run)
    && (t.marker.Some? ==> t.marker.value < |q.jobs| && HasPark(q.jobs[t.marker.value].claims))
  }

  predicate TicketsSound(q: Queue) {
    forall run :: run in q.runs ==> TicketSound(q, run)
  }

  predicate Inv(q: Queue) {
    JobsSound(q) && TicketsSound(q)
  }

  /** What a step does to a job that was already there. */
  lemma StepJob(q: Queue, a: Action, max: nat, j: nat)
    requires Inv(q) && Can(q, a) && j < |q.jobs|
    ensures j < |Do(q, a, max).jobs|
    ensures JobSound(Do(q, a, max).jobs[j]) && Follows(q.jobs[j], Do(q, a, max).jobs[j])
  {
    assert PlaceSound(q, j);
    if a.Work? && a.j == j {
      WorkSound(q.jobs[j], a.deed, max);
      WorkFollows(q.jobs[j], a.deed, max);
    } else if a.Park? && a.j == j {
      ParkSound(q.jobs[j], a.k);
      ParkFollows(q.jobs[j], a.k);
    }
  }

  /** A capacity wake carries the newest job's count over, to the unit. */
  lemma WokenSound(q: Queue, run: nat)
    requires Inv(q) && run in q.runs
    ensures JobSound(Woken(q, run)) && Woken(q, run).run == run && Woken(q, run).status.Queued?
    ensures q.runs[run].newest.Some? ==>
              Woken(q, run).seed == q.jobs[q.runs[run].newest.value].count == Woken(q, run).count
  {
    assert TicketSound(q, run);
    if q.runs[run].newest.Some? {
      assert PlaceSound(q, q.runs[run].newest.value);
      RefundsBelow(q.jobs[q.runs[run].newest.value].claims);
    }
  }

  lemma StepPlace(q: Queue, a: Action, max: nat, j: nat)
    requires Inv(q) && Can(q, a) && j < |Do(q, a, max).jobs|
    ensures PlaceSound(Do(q, a, max), j)
  {
    if j < |q.jobs| {
      assert PlaceSound(q, j);
      StepJob(q, a, max, j);
    } else if a.Wake? {
      WokenSound(q, a.run);
    }
  }

  lemma StepTicket(q: Queue, a: Action, max: nat, run: nat)
    requires Inv(q) && Can(q, a) && run in Do(q, a, max).runs
    ensures TicketSound(Do(q, a, max), run)
  {
    if run in q.runs {
      assert TicketSound(q, run);
      var t := q.runs[run];
      if t.newest.Some? { StepJob(q, a, max, t.newest.value); }
      if t.marker.Some? { StepJob(q, a, max, t.marker.value); }
      if a.Park? {
        assert PlaceSound(q, a.j);
        ParkFollows(q.jobs[a.j], a.k);
      }
    }
    if a.Wake? { WokenSound(q, a.run); }
  }

  lemma StepInv(q: Queue, a: Action, max: nat)
    requires Inv(q) && Can(q, a)
    ensures Inv(Do(q, a, max))
  {
    var p := Do(q, a, max);
    forall j | 0 <= j < |p.jobs| ensures PlaceSound(p, j) { StepPlace(q, a, max, j); }
    forall run | run in p.runs ensures TicketSound(p, run) { StepTicket(q, a, max, run); }
  }

  // --- what a dead job has burned ------------------------------------------------------------

  /** Failed and lost claims along the chain of jobs whose counts were carried into this one. */
  function ChainBurns(jobs: seq<Job>, j: nat): nat
    requires j < |jobs|
    decreases j, 1
  {
    Burns(jobs[j].claims) + SeedBurns(jobs, j)
  }

  function SeedBurns(jobs: seq<Job>, j: nat): nat
    requires j < |jobs|
    decreases j, 0
  {
    if jobs[j].prev.Some? && jobs[j].prev.value < j then ChainBurns(jobs, jobs[j].prev.value) else 0
  }

  /** A carried count never exceeds the failures and losses behind it, and a dead job has at least `max`. */
  predicate Owed(q: Queue, max: nat, j: nat)
    requires j < |q.jobs|
  {
    q.jobs[j].seed <= SeedBurns(q.jobs, j)
    && (q.jobs[j].status.Dead? ==> ChainBurns(q.jobs, j) >= max)
  }

  predicate AllOwed(q: Queue, max: nat) {
    forall j :: 0 <= j < |q.jobs| ==> Owed(q, max, j)
  }

  /** A job whose count may be carried over without charging for what has not failed: some claim of it was
      parked, or its last claim is settled. */
  predicate Fair(j: Job) {
    HasPark(j.claims) || !(j.status.Running? || j.status.Completed?)
  }

  /** What a job has spent is no more than it burned exactly when it is fair. A claim parked and then
      superseded was lost without being charged; one still open, or done, is charged without being lost. */
  lemma ChargesExactly(j: Job)
    requires JobSound(j)
    ensures j.count <= j.seed + Burns(j.claims) <==> Fair(j)
    ensures !Fair(j) ==> j.count == j.seed + Burns(j.claims) + 1
  {
    if j.claims != [] {
      var last := |j.claims| - 1;
      PastCharges(j.claims[..last]);
      if HasPark(j.claims[..last]) {
        var k :| 0 <= k < last && j.claims[..last][k].parked;
        assert j.claims[k].parked;
      }
      if HasPark(j.claims) && !j.claims[last].parked {
        var k :| 0 <= k < |j.claims| && j.claims[k].parked;
        assert j.claims[..last][k].parked;
      }
    }
  }

  lemma {:induction false} StepChain(q: Queue, a: Action, max: nat, j: nat)
    requires Inv(q) && Can(q, a) && j < |q.jobs|
    ensures j < |Do(q, a, max).jobs|
    ensures ChainBurns(Do(q, a, max).jobs, j) >= ChainBurns(q.jobs, j)
    ensures SeedBurns(Do(q, a, max).jobs, j) >= SeedBurns(q.jobs, j)
    decreases j
  {
    StepJob(q, a, max, j);
    if q.jobs[j].prev.Some? && q.jobs[j].prev.value < j { StepChain(q, a, max, q.jobs[j].prev.value); }
  }

  /** The wake that charges nothing extra: the job it copies from is fair. */
  predicate Proper(q: Queue, a: Action) {
    a.Wake? && a.run in q.runs && q.runs[a.run].newest.Some? && q.runs[a.run].newest.value < |q.jobs|
    ==> Fair(q.jobs[q.runs[a.run].newest.value])
  }

  /** A wake carries over more than the newest job was seeded with and burned exactly when it is not proper,
      and then one attempt more. Finding the newest job's own marker is enough for it to be proper. */
  lemma WakeExactly(q: Queue, run: nat, max: nat)
    requires Inv(q) && Can(q, Wake(run)) && q.runs[run].newest.Some?
    ensures var p := q.runs[run].newest.value;
      && (Do(q, Wake(run), max).jobs[|q.jobs|].seed > q.jobs[p].seed + Burns(q.jobs[p].claims)
          <==> !Proper(q, Wake(run)))
      && (!Proper(q, Wake(run)) ==>
            Do(q, Wake(run), max).jobs[|q.jobs|].seed == q.jobs[p].seed + Burns(q.jobs[p].claims) + 1)
      && (q.runs[run].marker == q.runs[run].newest ==> Proper(q, Wake(run)))
  {
    assert TicketSound(q, run);
    var p := q.runs[run].newest.value;
    assert PlaceSound(q, p);
    ChargesExactly(q.jobs[p]);
    WokenSound(q, run);
  }

  lemma DiesBurned(j: Job, deed: Deed, max: nat)
    requires JobSound(j) && CanWork(j, deed) && Worked(j, deed, max).status.Dead? && !j.status.Dead?
    ensures j.seed + Burns(Worked(j, deed, max).claims) >= max
  {
    WorkSound(j, deed, max);
    ChargesExactly(Worked(j, deed, max));
  }

  lemma WakeOwed(q: Queue, run: nat, max: nat)
    requires Inv(q) && AllOwed(q, max) && Can(q, Wake(run)) && Proper(q, Wake(run))
    ensures Owed(Do(q, Wake(run), max), max, |q.jobs|)
  {
    assert TicketSound(q, run);
    if q.runs[run].newest.Some? {
      var p := q.runs[run].newest.value;
      assert PlaceSound(q, p) && Owed(q, max, p);
      WakeExactly(q, run, max);
      StepChain(q, Wake(run), max, p);
    }
  }

  lemma StepOwed(q: Queue, a: Action, max: nat, j: nat)
    requires Inv(q) && AllOwed(q, max) && Can(q, a) && Proper(q, a) && j < |Do(q, a, max).jobs|
    ensures Owed(Do(q, a, max), max, j)
  {
    if j < |q.jobs| {
      assert PlaceSound(q, j) && Owed(q, max, j);
      StepJob(q, a, max, j);
      StepChain(q, a, max, j);
      if a.Work? && a.j == j && Do(q, a, max).jobs[j].status.Dead? && !q.jobs[j].status.Dead? {
        DiesBurned(q.jobs[j], a.deed, max);
      }
    } else if a.Wake? {
      WakeOwed(q, a.run, max);
    }
  }

  // --- every run -----------------------------------------------------------------------------

  ghost predicate Run(trace: seq<Queue>, actions: seq<Action>, max: nat) {
    |trace| == |actions| + 1 && trace[0] == Queue([], map[])
    && forall k :: 0 <= k < |actions| ==> Can(trace[k], actions[k]) && trace[k + 1] == Do(trace[k], actions[k], max)
  }

  lemma {:induction false} RunInv(trace: seq<Queue>, actions: seq<Action>, max: nat, k: nat)
    requires Run(trace, actions, max) && k < |trace|
    ensures Inv(trace[k])
  {
    if k > 0 {
      RunInv(trace, actions, max, k - 1);
      StepInv(trace[k - 1], actions[k - 1], max);
    }
  }

  /** Waiting is free and failing is not: in every state of every run, each job's count is its seed plus
      its claims, less the soft requeues and the capacity parks. */
  lemma WaitingIsFree(trace: seq<Queue>, actions: seq<Action>, max: nat, k: nat, j: nat)
    requires Run(trace, actions, max) && k < |trace| && j < |trace[k].jobs|
    ensures var job := trace[k].jobs[j]; job.count == job.seed + |job.claims| - Refunds(job.claims)
    ensures trace[k].jobs[j].status.Dead? ==> Burns(trace[k].jobs[j].claims) >= 1
  {
    RunInv(trace, actions, max, k);
    assert PlaceSound(trace[k], j);
  }

  /** A dead job has at least `max` failed or lost attempts behind it, over the whole chain of jobs that
      carried its count, in every run whose capacity wakes are proper. */
  lemma {:induction false} DeadMeansBurned(trace: seq<Queue>, actions: seq<Action>, max: nat, k: nat)
    requires Run(trace, actions, max) && k < |trace|
    requires forall i :: 0 <= i < k ==> Proper(trace[i], actions[i])
    ensures AllOwed(trace[k], max)
  {
    if k > 0 {
      RunInv(trace, actions, max, k - 1);
      DeadMeansBurned(trace, actions, max, k - 1);
      forall j | 0 <= j < |trace[k].jobs| ensures Owed(trace[k], max, j) {
        StepOwed(trace[k - 1], actions[k - 1], max, j);
      }
    }
  }

  /** How a job can die: by a failure of the claim that holds it, or by the sweep after its lease lapsed; and in
      both only with its attempts used up. */
  predicate Kills(job: Job, deed: Deed, max: nat) {
    job.status.Running? && job.count >= max
    && ((deed.Fail? && deed.fence == job.fence) || (deed.ReclaimExpired? && job.lapsed))
  }

  lemma DiesExactly(q: Queue, a: Action, max: nat, j: nat)
    requires Inv(q) && Can(q, a) && j < |q.jobs| && !q.jobs[j].status.Dead?
    ensures j < |Do(q, a, max).jobs|
    ensures Do(q, a, max).jobs[j].status.Dead? <==> a.Work? && a.j == j && Kills(q.jobs[j], a.deed, max)
  {
  }

  lemma BornAlive(q: Queue, a: Action, max: nat, j: nat)
    requires Can(q, a) && |q.jobs| <= j < |Do(q, a, max).jobs|
    ensures !Do(q, a, max).jobs[j].status.Dead?
  {
  }

  /** Every dead job of every run died at one step, in one of those two ways. */
  lemma {:induction false} DiedAt(trace: seq<Queue>, actions: seq<Action>, max: nat, k: nat, j: nat) returns (i: nat)
    requires Run(trace, actions, max) && k < |trace| && j < |trace[k].jobs| && trace[k].jobs[j].status.Dead?
    ensures i < k && j < |trace[i].jobs| && actions[i].Work? && actions[i].j == j
    ensures Kills(trace[i].jobs[j], actions[i].deed, max)
  {
    var q, a := trace[k - 1], actions[k - 1];
    RunInv(trace, actions, max, k - 1);
    if j >= |q.jobs| {
      BornAlive(q, a, max, j);
      assert false;
    } else if q.jobs[j].status.Dead? {
      i := DiedAt(trace, actions, max, k - 1, j);
    } else {
      DiesExactly(q, a, max, j);
      i := k - 1;
    }
  }

  lemma ChainOfTwo(jobs: seq<Job>, n: nat, p: nat)
    requires p < n < |jobs| && jobs[n].prev == Some(p) && jobs[p].prev.None?
    ensures ChainBurns(jobs, n) == Burns(jobs[n].claims) + Burns(jobs[p].claims)
  {
    assert SeedBurns(jobs, p) == 0;
    assert ChainBurns(jobs, p) == Burns(jobs[p].claims);
    assert SeedBurns(jobs, n) == ChainBurns(jobs, p);
  }

  lemma SingleClaim(c: Claim)
    ensures Burns([c]) == One(Burned(c)) && Refunds([c]) == One(Free(c))
  {
    assert [c][..0] == [];
  }

  /** A job carried over at one attempt dies of its first failure when two are allowed. */
  lemma CarriedOneDies(j: Job)
    requires j.status.Queued? && j.claims == [] && j.fence == 0 && j.count == 1
    ensures var dead := Worked(Worked(j, TakeJob, 2), Fail(1), 2);
      dead.status.Dead? && dead.claims == [Claim(Failed, false)] && dead.prev == j.prev
    ensures CanWork(j, TakeJob) && CanWork(Worked(j, TakeJob, 2), Fail(1))
  {
  }

  /** The condition is needed. A refund is not fenced, so an attempt left over from an older job can park
      the run while its newest job is on its first claim; the wake then carries that open claim over, and
      with two attempts allowed the next job dies of a single failure. */
  lemma StaleMarkerOvercharges(q: Queue, run: nat, stale: nat, k: nat, p: nat)
    requires Inv(q) && Can(q, Park(stale, k)) && q.jobs[stale].run == run
    requires q.runs[run].newest == Some(p) && p != stale
    requires q.jobs[p].claims == [Claim(Open, false)] && q.jobs[p].prev.None?
    ensures var n := |q.jobs|;
      var q1 := Do(Do(q, Park(stale, k), 2), Wake(run), 2);
      && Can(q1, Work(n, TakeJob)) && Can(Do(q1, Work(n, TakeJob), 2), Work(n, Fail(1)))
      && var q3 := Do(Do(q1, Work(n, TakeJob), 2), Work(n, Fail(1)), 2);
      && q3.jobs[n].status.Dead? && ChainBurns(q3.jobs, n) == 1
  {
    assert TicketSound(q, run) && PlaceSound(q, p);
    SingleClaim(Claim(Open, false));
    SingleClaim(Claim(Failed, false));
    var n, q0 := |q.jobs|, Do(q, Park(stale, k), 2);
    var q1 := Do(q0, Wake(run), 2);
    assert q0.jobs[p] == q.jobs[p] && q.jobs[p].count == 1;
    assert q1.jobs[n] == Fresh(run).(count := 1, seed := 1, prev := Some(p));
    CarriedOneDies(q1.jobs[n]);
    var q3 := Do(Do(q1, Work(n, TakeJob), 2), Work(n, Fail(1)), 2);
    assert q3.jobs[p] == q.jobs[p];
    ChainOfTwo(q3.jobs, n, p);
  }
}
