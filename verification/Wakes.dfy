/** Every way a waiting run goes on (packages/coordinator/approvals.go:540-578, commands.go:388-422,
    placement.go:342-383, background.go:224-307, detach.go:90-143): resume and job are one step, and a
    capacity wake is for runs parked for capacity. */
module Wakes {
  import opened Base
  import opened RunTable
  import opened Journal
  import opened Spine
  import opened Commands
  import opened CommandLife

  function Woke(was: map<nat, Run>, now: map<nat, Run>): set<nat> {
    set r | r in was && was[r].state.Waiting? && r in now && now[r].state.Running?
  }

  lemma WokenOne(runs: map<nat, Run>, r: nat)
    ensures if r in runs && runs[r].state.Waiting?
            then Woke(runs, Woken(runs, r)) == {r} && WakeJobs(runs, r) == [r]
            else Woke(runs, Woken(runs, r)) == {} && WakeJobs(runs, r) == []
  {
  }

  lemma DrivenNone(runs: map<nat, Run>, r: nat, c: RunCommand, cause: Option<Cause>)
    requires r in runs && Next(runs[r].state, c).Some? && !c.Resume?
    ensures Woke(runs, Driven(runs, r, c, cause)) == {}
  {
  }

  lemma WokeByTable(sp: Spine, a: Action)
    requires Can(sp, a) && !a.NewRun? && !a.Reenqueue?
    ensures var woke := Woke(sp.runs, RunsAfter(sp, a));
      (woke == {} && JobsAdded(sp, a) == []) || exists r :: woke == {r} && JobsAdded(sp, a) == [r]
  {
    match a
    case Accept(_, _, _, seen, _) => if seen.run.Some? { WokenOne(sp.runs, seen.run.value); }
    case Pause(r, i) => if Legal(sp, r, Wait) { DrivenNone(sp.runs, r, Wait, Some(ForPause)); }
    case Drive(r, c, cause) => DrivenNone(sp.runs, r, c, cause);
    case WakeUp(r) => WokenOne(sp.runs, r);
    case Notify(r, _, _) => WokenOne(sp.runs, r);
    case ParkForCapacity(r) => DrivenNone(sp.runs, r, Wait, Some(ForCapacity));
    case WakeForCapacity(r) => WokenOne(sp.runs, r);
    case _ =>
  }

  /** One step: either it wakes no run and enqueues nothing, or it wakes one run and enqueues that run's
      job, once. Admitting a run and the reconciler's re-enqueue are the only other sources of a job. */
  lemma SingleWinner(sp: Spine, a: Action)
    requires Can(sp, a) && !a.NewRun? && !a.Reenqueue?
    ensures var woke := Woke(sp.runs, Do(sp, a).runs);
      (woke == {} && Do(sp, a).jobs == sp.jobs) || exists r :: woke == {r} && Do(sp, a).jobs == sp.jobs + [r]
  {
    StepEffect(sp, a);
    WokeByTable(sp, a);
  }

  /** A waker that comes to a run no longer waiting leaves everything as it was. */
  lemma LateWakerChangesNothing(sp: Spine, r: nat)
    requires r in sp.runs && !sp.runs[r].state.Waiting?
    ensures Do(sp, WakeUp(r)) == sp && !Can(sp, WakeForCapacity(r))
  {
  }

  // --- over whole runs -----------------------------------------------------------------------

  function Times(jobs: seq<nat>, r: nat): nat {
    if jobs == [] then 0 else Times(jobs[..|jobs| - 1], r) + One(jobs[|jobs| - 1] == r)
  }

  lemma TimesAppend(jobs: seq<nat>, more: seq<nat>, r: nat)
    requires |more| <= 1
    ensures Times(jobs + more, r) == Times(jobs, r) + One(more == [r])
  {
    if more == [] {
      assert jobs + more == jobs;
    } else {
      assert (jobs + more)[..|jobs|] == jobs;
    }
  }

  /** How often run r was woken, and how often admitted or re-enqueued, in the first k steps. */
  ghost function WakesOf(trace: seq<Spine>, k: nat, r: nat): nat
    requires k < |trace|
  {
    if k == 0 then 0 else WakesOf(trace, k - 1, r) + One(r in Woke(trace[k - 1].runs, trace[k].runs))
  }

  ghost function OtherJobs(actions: seq<Action>, k: nat, r: nat): nat
    requires k <= |actions|
  {
    if k == 0 then 0
    else
      var a := actions[k - 1];
      OtherJobs(actions, k - 1, r) + One((a.NewRun? || a.Reenqueue?) && a.r == r)
  }

  lemma StepJobs(sp: Spine, a: Action, r: nat)
    requires Can(sp, a)
    ensures Times(Do(sp, a).jobs, r)
            == Times(sp.jobs, r) + One(r in Woke(sp.runs, Do(sp, a).runs))
               + One((a.NewRun? || a.Reenqueue?) && a.r == r)
  {
    StepEffect(sp, a);
    if a.NewRun? || a.Reenqueue? {
      TimesAppend(sp.jobs, [a.r], r);
      assert Woke(sp.runs, RunsAfter(sp, a)) == {};
    } else {
      WokeByTable(sp, a);
      TimesAppend(sp.jobs, JobsAdded(sp, a), r);
    }
  }

  /** Conservation: at every point of every run, the response.run jobs enqueued for r are its wakes plus
      its admission and re-enqueues. No wake is without its job and no job without its cause. */
  lemma {:induction false} JobsAreWakes(trace: seq<Spine>, actions: seq<Action>, k: nat, r: nat)
    requires CommandLife.Run(trace, actions) && k < |trace|
    ensures Times(trace[k].jobs, r) == WakesOf(trace, k, r) + OtherJobs(actions, k, r)
  {
    if k > 0 {
      JobsAreWakes(trace, actions, k - 1, r);
      StepJobs(trace[k - 1], actions[k - 1], r);
    }
  }

  // --- the capacity wake ---------------------------------------------------------------------

  predicate MarkTrue(runs: map<nat, Run>, marked: set<nat>, r: nat) {
    r in marked && r in runs && runs[r].state.Waiting? ==> runs[r].cause == Some(ForCapacity)
  }

  /** A waiting run that carries the awaiting_capacity marker is waiting for capacity. */
  predicate MarksTrue(sp: Spine) {
    forall r :: r in sp.marked ==> MarkTrue(sp.runs, sp.marked, r)
  }

  /** A run made to wait for something else while an older attempt's marker is still on it: the attempt
      that parks it was never recorded, for recording an attempt clears the marker. */
  predicate StaleWait(sp: Spine, a: Action) {
    match a
    case Pause(r, i) => Legal(sp, r, Wait) && Pending(sp, i) && r in sp.marked
    case Drive(r, c, _) => c.Wait? && r in sp.marked
    case _ => false
  }

  lemma MarksAfter(sp: Spine, a: Action)
    requires Can(sp, a) && MarksTrue(sp)
    ensures (forall r :: r in MarkedAfter(sp, a) ==> MarkTrue(RunsAfter(sp, a), MarkedAfter(sp, a), r))
            <==> !StaleWait(sp, a)
  {
    if StaleWait(sp, a) {
      assert a.r in MarkedAfter(sp, a) && !MarkTrue(RunsAfter(sp, a), MarkedAfter(sp, a), a.r);
    } else {
      forall r | r in MarkedAfter(sp, a) ensures MarkTrue(RunsAfter(sp, a), MarkedAfter(sp, a), r) {
        assert r in sp.marked ==> MarkTrue(sp.runs, sp.marked, r);
      }
    }
  }

  /** One step: markers stay true exactly when no run is made to wait under a stale one. */
  lemma MarksExactly(sp: Spine, a: Action)
    requires Can(sp, a) && MarksTrue(sp)
    ensures MarksTrue(Do(sp, a)) <==> !StaleWait(sp, a)
  {
    StepEffect(sp, a);
    MarksAfter(sp, a);
  }

  /** The stale wait of one run. */
  predicate StaleWaitOf(sp: Spine, a: Action, r: nat) {
    (a.Pause? || a.Drive?) && a.r == r && StaleWait(sp, a)
  }

  /** What makes the marker true of it again: an attempt recorded, or the end of that wait. */
  predicate Clears(sp: Spine, a: Action, r: nat) {
    a == RecordAttempt(r) || LeavesWait(sp, a, r)
  }

  predicate Misleads(sp: Spine, r: nat) {
    !MarkTrue(sp.runs, sp.marked, r)
  }

  lemma MarkLost(sp: Spine, a: Action, r: nat)
    requires Can(sp, a) && !Misleads(sp, r)
    ensures Misleads(Do(sp, a), r) <==> StaleWaitOf(sp, a, r)
  {
    StepEffect(sp, a);
  }

  lemma MarkCleared(sp: Spine, a: Action, r: nat)
    requires Can(sp, a) && Misleads(sp, r)
    ensures Misleads(Do(sp, a), r) <==> !Clears(sp, a, r)
    ensures !StaleWaitOf(sp, a, r)
  {
    StepEffect(sp, a);
    WaitLeft(sp, a, r);
  }

  /** Made to wait under a stale marker at step i, and neither cleared nor gone on since. */
  ghost predicate StaleSince(trace: seq<Spine>, actions: seq<Action>, i: nat, k: nat, r: nat) {
    i < k < |trace| == |actions| + 1 && StaleWaitOf(trace[i], actions[i], r)
    && forall j :: i < j < k ==> !Clears(trace[j], actions[j], r)
  }

  ghost predicate StaleNow(trace: seq<Spine>, actions: seq<Action>, k: nat, r: nat) {
    exists i: nat :: StaleSince(trace, actions, i, k, r)
  }

  lemma StaleNext(trace: seq<Spine>, actions: seq<Action>, k: nat, r: nat)
    requires k < |actions| && |trace| == |actions| + 1
    ensures StaleNow(trace, actions, k + 1, r)
            <==> StaleWaitOf(trace[k], actions[k], r)
                 || (StaleNow(trace, actions, k, r) && !Clears(trace[k], actions[k], r))
  {
    var n := k + 1;
    if StaleWaitOf(trace[k], actions[k], r) { assert StaleSince(trace, actions, k, n, r); }
    if StaleNow(trace, actions, k, r) && !Clears(trace[k], actions[k], r) {
      var i: nat :| StaleSince(trace, actions, i, k, r);
      assert StaleSince(trace, actions, i, n, r);
    }
    if i: nat :| StaleSince(trace, actions, i, n, r) && i < k { assert StaleSince(trace, actions, i, k, r); }
  }

  /** In every state of every run, a waiting run carries the marker of a wait that is not its own exactly when
      it was made to wait under a leftover marker and neither an attempt nor the end of that wait has come. */
  lemma {:induction false} MisleadsExactly(trace: seq<Spine>, actions: seq<Action>, k: nat, r: nat)
    requires CommandLife.Run(trace, actions) && k < |trace|
    ensures Misleads(trace[k], r) <==> StaleNow(trace, actions, k, r)
  {
    if k > 0 {
      var sp, a := trace[k - 1], actions[k - 1];
      MisleadsExactly(trace, actions, k - 1, r);
      StaleNext(trace, actions, k - 1, r);
      if Misleads(sp, r) { MarkCleared(sp, a, r); } else { MarkLost(sp, a, r); }
    }
  }

  /** A capacity wake re-enters a run that waits for another reason exactly when it was so made to wait. */
  lemma CapacityWakesCapacity(trace: seq<Spine>, actions: seq<Action>, k: nat)
    requires CommandLife.Run(trace, actions) && k < |actions| && actions[k].WakeForCapacity?
    ensures trace[k].runs[actions[k].r].cause == Some(ForCapacity) <==> !StaleNow(trace, actions, k, actions[k].r)
  {
    MisleadsExactly(trace, actions, k, actions[k].r);
  }

  /** And with one it does: a run paused under a leftover marker is resumed by the next machine to come. */
  lemma StaleMarkerUnpauses(sp: Spine, r: nat, i: nat)
    requires r in sp.marked && Legal(sp, r, Wait) && Pending(sp, i)
    ensures var paused := Do(sp, Pause(r, i));
      && paused.runs[r].state.Waiting? && paused.runs[r].cause == Some(ForPause)
      && Can(paused, WakeForCapacity(r)) && Do(paused, WakeForCapacity(r)).runs[r].state.Running?
  {
    StepEffect(sp, Pause(r, i));
    StepEffect(Do(sp, Pause(r, i)), WakeForCapacity(r));
  }

  // --- and it is reached ---------------------------------------------------------------------

  ghost predicate Reached(sp: Spine) {
    exists trace, actions :: CommandLife.Run(trace, actions) && trace[|actions|] == sp
  }

  lemma ReachedNext(sp: Spine, a: Action)
    requires Reached(sp) && Can(sp, a)
    ensures Reached(Do(sp, a))
  {
    var trace, actions :| CommandLife.Run(trace, actions) && trace[|actions|] == sp;
    var longer, more := trace + [Do(sp, a)], actions + [a];
    assert CommandLife.Run(longer, more) && longer[|more|] == Do(sp, a);
  }

  lemma ReachedStart(sp: Spine)
    requires CommandLife.Start(sp)
    ensures Reached(sp)
  {
    var trace: seq<Spine>, actions: seq<Action> := [sp], [];
    assert CommandLife.Run(trace, actions) && trace[|actions|] == sp;
  }

  /** Nothing about commands or sessions has moved since. */
  predicate OnlyRunsMoved(was: Spine, now: Spine) {
    now.cmds == was.cmds && now.sessions == was.sessions
  }

  lemma DrivenReached(sp: Spine, r: nat, c: RunCommand) returns (out: Spine)
    requires Reached(sp) && r in sp.runs && c in {Provision, Start} && Next(sp.runs[r].state, c).Some?
    ensures Reached(out) && OnlyRunsMoved(sp, out)
    ensures r in out.runs && out.runs[r].state == Next(sp.runs[r].state, c).value
  {
    out := Do(sp, Drive(r, c, None));
    StepEffect(sp, Drive(r, c, None));
    ReachedNext(sp, Drive(r, c, None));
  }

  lemma ParkedReached(sp: Spine, r: nat) returns (out: Spine)
    requires Reached(sp) && r in sp.runs && sp.runs[r].state.Running?
    ensures Reached(out) && OnlyRunsMoved(sp, out) && r in out.marked && r in out.runs && out.runs[r].state.Waiting?
  {
    out := Do(sp, ParkForCapacity(r));
    StepEffect(sp, ParkForCapacity(r));
    ReachedNext(sp, ParkForCapacity(r));
  }

  /** A run that was parked for capacity and woken is running again under its marker, until an attempt is
      recorded. */
  lemma MarkerOutlivesWake(sp: Spine, r: nat) returns (out: Spine)
    requires Reached(sp) && r in sp.runs && sp.runs[r].state.Waiting? && r in sp.marked
    ensures Reached(out) && OnlyRunsMoved(sp, out) && r in out.marked && r in out.runs && out.runs[r].state.Running?
  {
    out := Do(sp, WakeForCapacity(r));
    StepEffect(sp, WakeForCapacity(r));
    ReachedNext(sp, WakeForCapacity(r));
  }

  lemma AdmittedReached(session: nat, r: nat) returns (sp: Spine)
    ensures Reached(sp) && sp.sessions.Keys == {session} && sp.cmds == []
    ensures r in sp.runs && sp.runs[r].state.Queued?
  {
    sp := Spine(map[], map[], [], {}, [], Log([], map[]));
    ReachedStart(sp);
    ReachedNext(sp, NewSession(session));
    sp := Do(sp, NewSession(session));
    ReachedNext(sp, NewRun(r, session));
    sp := Do(sp, NewRun(r, session));
  }

  /** The state StaleMarkerUnpauses starts from is reached, for any run of any session: parked, woken, and
      asked to pause before its next attempt is recorded. */
  lemma StaleMarkerReached(session: nat, r: nat, id: nat) returns (sp: Spine)
    ensures Reached(sp) && r in sp.marked && Legal(sp, r, Wait) && Pending(sp, 0)
    ensures sp.cmds[0].kind.PauseRun? && sp.cmds[0].run == Some(r)
  {
    sp := AdmittedReached(session, r);
    sp := DrivenReached(sp, r, Provision);
    sp := DrivenReached(sp, r, Start);
    sp := ParkedReached(sp, r);
    sp := MarkerOutlivesWake(sp, r);
    var ask := Accept(session, id, PauseRun, Seen(true, Some(r), false, false), session + 1);
    assert Can(sp, ask);
    ReachedNext(sp, ask);
    StepEffect(sp, ask);
    sp := Do(sp, ask);
  }
}
