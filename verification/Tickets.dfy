/** What the queue remembers of a run, read off the run's history: whether it waits, which attempt left the
    awaiting_capacity marker, and which job is its newest. The capacity wake goes by these three
    (packages/coordinator/placement.go:350-383,
    storage/queries/runners.sql:485-548). */
module Tickets {
  import opened Base
  import opened Jobs

  // --- the newest job ------------------------------------------------------------------------

  predicate IsNewest(jobs: seq<Job>, run: nat, newest: Option<nat>) {
    match newest
    case None => forall j :: 0 <= j < |jobs| ==> jobs[j].run != run
    case Some(n) => n < |jobs| && jobs[n].run == run && forall j :: n < j < |jobs| ==> jobs[j].run != run
  }

  predicate NewestKnown(q: Queue) {
    && (forall run :: run in q.runs ==> IsNewest(q.jobs, run, q.runs[run].newest))
    && (forall j :: 0 <= j < |q.jobs| ==> q.jobs[j].run in q.runs)
  }

  lemma StepRuns(q: Queue, a: Action, max: nat, j: nat)
    requires Can(q, a) && j < |q.jobs|
    ensures |Do(q, a, max).jobs| >= |q.jobs| && Do(q, a, max).jobs[j].run == q.jobs[j].run
  {
  }

  lemma StepNewest(q: Queue, a: Action, max: nat)
    requires NewestKnown(q) && Can(q, a)
    ensures NewestKnown(Do(q, a, max))
  {
    forall j | 0 <= j < |q.jobs| ensures Do(q, a, max).jobs[j].run == q.jobs[j].run { StepRuns(q, a, max, j); }
  }

  /** In every state of every run of the queue, the ticket names the last job enqueued for its run. */
  lemma {:induction false} NewestIsLast(trace: seq<Queue>, actions: seq<Action>, max: nat, k: nat)
    requires Run(trace, actions, max) && k < |trace|
    ensures NewestKnown(trace[k])
  {
    if k > 0 {
      NewestIsLast(trace, actions, max, k - 1);
      StepNewest(trace[k - 1], actions[k - 1], max);
    }
  }

  // --- waiting -------------------------------------------------------------------------------

  predicate ParksRun(q: Queue, a: Action, run: nat) {
    a.Park? && a.j < |q.jobs| && q.jobs[a.j].run == run
  }

  predicate Rests(q: Queue, a: Action, run: nat) {
    a == Suspend(run) || ParksRun(q, a, run)
  }

  predicate Resumes(a: Action, run: nat) {
    a == Enqueue(run) || a == Wake(run)
  }

  predicate WaitsIn(q: Queue, run: nat) {
    run in q.runs && q.runs[run].waiting
  }

  lemma WaitStep(q: Queue, a: Action, max: nat, run: nat)
    requires Can(q, a)
    ensures WaitsIn(Do(q, a, max), run) <==> Rests(q, a, run) || (WaitsIn(q, run) && !Resumes(a, run))
  {
  }

  ghost predicate RestingSince(trace: seq<Queue>, actions: seq<Action>, i: nat, k: nat, run: nat) {
    i < k < |trace| == |actions| + 1 && Rests(trace[i], actions[i], run)
    && forall j :: i < j < k ==> !Resumes(actions[j], run)
  }

  ghost predicate Resting(trace: seq<Queue>, actions: seq<Action>, k: nat, run: nat) {
    exists i: nat :: RestingSince(trace, actions, i, k, run)
  }

  lemma RestingNext(trace: seq<Queue>, actions: seq<Action>, k: nat, run: nat)
    requires 0 < k < |trace| == |actions| + 1
    ensures Resting(trace, actions, k, run) <==>
      Rests(trace[k - 1], actions[k - 1], run)
      || (Resting(trace, actions, k - 1, run) && !Resumes(actions[k - 1], run))
  {
    var m := k - 1;
    if Rests(trace[k - 1], actions[k - 1], run) {
      assert RestingSince(trace, actions, k - 1, k, run);
    } else if i: nat :| RestingSince(trace, actions, i, m, run) {
      if !Resumes(actions[k - 1], run) { assert RestingSince(trace, actions, i, k, run); }
    }
    if i: nat :| RestingSince(trace, actions, i, k, run) {
      if i < k - 1 { assert RestingSince(trace, actions, i, k - 1, run); }
    }
  }

  /** A run waits exactly when it was suspended or parked and neither a wake nor an enqueue came since. */
  lemma {:induction false} WaitsExactly(trace: seq<Queue>, actions: seq<Action>, max: nat, k: nat, run: nat)
    requires Run(trace, actions, max) && k < |trace|
    ensures WaitsIn(trace[k], run) <==> Resting(trace, actions, k, run)
  {
    if k > 0 {
      WaitsExactly(trace, actions, max, k - 1, run);
      WaitStep(trace[k - 1], actions[k - 1], max, run);
      RestingNext(trace, actions, k, run);
    }
  }

  // --- the marker ----------------------------------------------------------------------------

  predicate MarkedBy(q: Queue, run: nat, j: nat) {
    run in q.runs && q.runs[run].marker == Some(j)
  }

  predicate Leaves(q: Queue, a: Action, run: nat, j: nat) {
    ParksRun(q, a, run) && a.j == j
  }

  /** The next attempt is recorded, or another park overwrites the marker. */
  predicate Unmarks(q: Queue, a: Action, run: nat) {
    a == RecordAttempt(run) || ParksRun(q, a, run)
  }

  lemma MarkStep(q: Queue, a: Action, max: nat, run: nat, j: nat)
    requires Can(q, a)
    ensures MarkedBy(Do(q, a, max), run, j) <==>
      Leaves(q, a, run, j) || (MarkedBy(q, run, j) && !Unmarks(q, a, run))
  {
  }

  ghost predicate LeftSince(trace: seq<Queue>, actions: seq<Action>, i: nat, k: nat, run: nat, j: nat) {
    i < k < |trace| == |actions| + 1 && Leaves(trace[i], actions[i], run, j)
    && forall n :: i < n < k ==> !Unmarks(trace[n], actions[n], run)
  }

  ghost predicate Left(trace: seq<Queue>, actions: seq<Action>, k: nat, run: nat, j: nat) {
    exists i: nat :: LeftSince(trace, actions, i, k, run, j)
  }

  lemma LeftNext(trace: seq<Queue>, actions: seq<Action>, k: nat, run: nat, j: nat)
    requires 0 < k < |trace| == |actions| + 1
    ensures Left(trace, actions, k, run, j) <==>
      Leaves(trace[k - 1], actions[k - 1], run, j)
      || (Left(trace, actions, k - 1, run, j) && !Unmarks(trace[k - 1], actions[k - 1], run))
  {
    var m := k - 1;
    if Leaves(trace[k - 1], actions[k - 1], run, j) {
      assert LeftSince(trace, actions, k - 1, k, run, j);
    } else if i: nat :| LeftSince(trace, actions, i, m, run, j) {
      if !Unmarks(trace[k - 1], actions[k - 1], run) { assert LeftSince(trace, actions, i, k, run, j); }
    }
    if i: nat :| LeftSince(trace, actions, i, k, run, j) {
      if i < k - 1 { assert LeftSince(trace, actions, i, k - 1, run, j); }
    }
  }

  /** The marker names a job exactly when that job was the last of its run to park and no attempt has been
      recorded since. */
  lemma {:induction false} MarkedExactly(
    trace: seq<Queue>, actions: seq<Action>, max: nat, k: nat, run: nat, j: nat)
    requires Run(trace, actions, max) && k < |trace|
    ensures MarkedBy(trace[k], run, j) <==> Left(trace, actions, k, run, j)
  {
    if k > 0 {
      MarkedExactly(trace, actions, max, k - 1, run, j);
      MarkStep(trace[k - 1], actions[k - 1], max, run, j);
      LeftNext(trace, actions, k, run, j);
    }
  }

  /** Every capacity wake of every run: some job of the run parked with no attempt recorded since, the run has
      been resting since it last came to rest, and the new job goes on from the run's last one. */
  lemma WakeFound(trace: seq<Queue>, actions: seq<Action>, max: nat, k: nat) returns (left: nat, rested: nat)
    requires Run(trace, actions, max) && k < |actions| && actions[k].Wake?
    ensures LeftSince(trace, actions, left, k, actions[k].run, trace[k].runs[actions[k].run].marker.value)
    ensures RestingSince(trace, actions, rested, k, actions[k].run)
    ensures trace[k + 1].jobs == trace[k].jobs + [trace[k + 1].jobs[|trace[k].jobs|]]
    ensures IsNewest(trace[k].jobs, actions[k].run, trace[k + 1].jobs[|trace[k].jobs|].prev)
  {
    var run := actions[k].run;
    var j := trace[k].runs[run].marker.value;
    MarkedExactly(trace, actions, max, k, run, j);
    WaitsExactly(trace, actions, max, k, run);
    NewestIsLast(trace, actions, max, k);
    left :| LeftSince(trace, actions, left, k, run, j);
    rested :| RestingSince(trace, actions, rested, k, run);
  }
}
