/** Background tasks and the one thing said about each that finishes (packages/coordinator/background.go:
    152-307, 491-540, storage/queries/background.sql). Any number of sweepers, of control planes and of
    crashes before commit: a settle is one transaction, and one that never commits is no step at all. */
module Background {
  import opened Base
  import opened RunTable
  import opened Journal
  import opened Spine
  import opened Commands
  import opened CommandLife
  import opened Quiet

  /** notified is `notified_at IS NOT NULL`. ended is history: settled by whoever ended it on purpose. */
  datatype Task = Task(run: nat, running: bool, notified: bool, ended: bool)

  datatype Yard = Yard(sp: Spine, tasks: map<nat, Task>)

  // --- the transactions ----------------------------------------------------------------------

  /** The claim succeeds: nobody has told of the task yet. */
  predicate Claims(y: Yard, task: nat, id: nat) {
    task in y.tasks && y.tasks[task].run in y.sp.runs && !y.tasks[task].notified && !HasId(y.sp.cmds, id)
  }

  /** settleBackgroundTask: the claim is `notified_at IS NULL`; the run's state says where it goes. `id` is
      the fresh command id. */
  function Swept(y: Yard, task: nat, id: nat): Yard {
    if !Claims(y, task, id) then y
    else
      var t := y.tasks[task];
      var claimed := y.tasks[task := t.(running := false, notified := true)];
      if Terminal(y.sp.runs[t.run].state)
      then Yard(Tell(y.sp, y.sp.runs[t.run].session, Orphaned(task)), claimed)
      else Yard(Do(y.sp, Notify(t.run, id, task)), claimed)
  }

  /** SettleEndedBackgroundTask. */
  function Ended(y: Yard, task: nat): Yard {
    if task in y.tasks && y.tasks[task].run in y.sp.runs && y.tasks[task].running
    then y.(tasks := y.tasks[task := y.tasks[task].(running := false, notified := true, ended := true)])
    else y
  }

  datatype Deed =
    | Launch(task: nat, run: nat)
    | Sweep(task: nat, id: nat)
    | End(task: nat)
    | Elsewhere(a: Action)

  predicate CanDo(y: Yard, d: Deed) {
    match d
    case Launch(task, run) => task !in y.tasks && run in y.sp.runs
    case Sweep(_, _) => true
    case End(_) => true
    case Elsewhere(a) =>
      Can(y.sp, a) && !a.Notify? && (a.Journal? ==> !a.body.Orphaned?) && (a.Accept? ==> !a.kind.BackgroundNotice?)
  }

  function Done(y: Yard, d: Deed): Yard
    requires CanDo(y, d)
  {
    match d
    case Launch(task, run) => y.(tasks := y.tasks[task := Task(run, true, false, false)])
    case Sweep(task, id) => Swept(y, task, id)
    case End(task) => Ended(y, task)
    case Elsewhere(a) => y.(sp := Do(y.sp, a))
  }

  // --- counting notices ----------------------------------------------------------------------

  /** Commands that carry the notice of a task. */
  function Notices(cmds: seq<Cmd>, task: nat): nat {
    if cmds == [] then 0
    else Notices(cmds[..|cmds| - 1], task) + One(cmds[|cmds| - 1].kind == BackgroundNotice(task))
  }

  lemma {:induction false} SameKinds(a: seq<Cmd>, b: seq<Cmd>, task: nat)
    requires |a| == |b| && forall i :: 0 <= i < |a| ==> a[i].kind == b[i].kind
    ensures Notices(a, task) == Notices(b, task)
  {
    if a != [] { SameKinds(a[..|a| - 1], b[..|b| - 1], task); }
  }

  /** The command a step adds, told by its kind. */
  function KindAdded(sp: Spine, a: Action): Option<Kind> {
    match a
    case Accept(session, id, kind, seen, child) =>
      if session in sp.sessions && !HasId(sp.cmds, id) then Some(kind) else None
    case Notify(_, _, task) => Some(BackgroundNotice(task))
    case _ => None
  }

  lemma StepLength(sp: Spine, a: Action)
    requires Can(sp, a)
    ensures |Do(sp, a).cmds| == |sp.cmds| + One(KindAdded(sp, a).Some?)
    ensures KindAdded(sp, a).Some? ==> Do(sp, a).cmds[|sp.cmds|].kind == KindAdded(sp, a).value
  {
    match a
    case Accept(session, id, kind, seen, child) =>
      if session in sp.sessions && !HasId(sp.cmds, id) { AcceptNew(sp, session, id, kind, seen, child); }
    case Pause(r, i) => if Legal(sp, r, Wait) { TransitFollows(sp, r, Wait, Some(ForPause)); }
    case Drive(r, c, cause) => TransitLength(sp, r, c, cause);
    case WakeUp(r) => WakeFollows(sp, r);
    case WakeForCapacity(r) => WakeFollows(sp, r);
    case ParkForCapacity(r) => TransitFollows(sp, r, Wait, Some(ForCapacity));
    case Notify(r, id, task) => WakeFollows(AddCommand(sp, id, sp.runs[r].session, Some(r), BackgroundNotice(task)), r);
    case _ =>
  }

  lemma TransitLength(sp: Spine, r: nat, c: RunCommand, cause: Option<Cause>)
    requires Legal(sp, r, c)
    ensures |Transit(sp, r, c, cause).cmds| == |sp.cmds|
  {
  }

  lemma StepKinds(sp: Spine, a: Action, i: nat)
    requires Can(sp, a) && i < |sp.cmds|
    ensures i < |Do(sp, a).cmds| && Do(sp, a).cmds[i].kind == sp.cmds[i].kind
  {
    EndIsFinal(sp, a, i);
  }

  lemma StepNotices(sp: Spine, a: Action, task: nat)
    requires Can(sp, a)
    ensures Notices(Do(sp, a).cmds, task)
            == Notices(sp.cmds, task) + One(KindAdded(sp, a) == Some(BackgroundNotice(task)))
  {
    var now := Do(sp, a).cmds;
    StepLength(sp, a);
    forall i | 0 <= i < |sp.cmds| ensures now[i].kind == sp.cmds[i].kind { StepKinds(sp, a, i); }
    SameKinds(sp.cmds, now[..|sp.cmds|], task);
    if KindAdded(sp, a).None? { assert now[..|sp.cmds|] == now; }
  }

  // --- the invariant -------------------------------------------------------------------------

  function ToldOf(y: Yard, task: nat): nat {
    Notices(y.sp.cmds, task) + Count(y.sp, Orphaned(task))
  }

  /** Running is not yet told; told is exactly once; ended on purpose is never told; an orphan's run is over. */
  predicate TaskTrue(y: Yard, task: nat) {
    if task !in y.tasks then ToldOf(y, task) == 0
    else
      var t := y.tasks[task];
      && t.run in y.sp.runs
      && (t.running <==> !t.notified)
      && (t.ended ==> t.notified)
      && ToldOf(y, task) == One(t.notified && !t.ended)
      && (Count(y.sp, Orphaned(task)) > 0 ==> Terminal(y.sp.runs[t.run].state))
  }

  ghost predicate Inv(y: Yard) {
    forall task: nat :: TaskTrue(y, task)
  }

  lemma SpineKeeps(y: Yard, a: Action, task: nat)
    requires TaskTrue(y, task) && CanDo(y, Elsewhere(a))
    ensures TaskTrue(Done(y, Elsewhere(a)), task)
  {
    StepNotices(y.sp, a, task);
    StepQuiet(y.sp, a, Orphaned(task));
    if task in y.tasks { StepRuns(y.sp, a, y.tasks[task].run); }
  }

  lemma OrphanTold(y: Yard, task: nat, other: nat)
    requires TaskTrue(y, task) && TaskTrue(y, other) && task in y.tasks && !y.tasks[task].notified
    requires Terminal(y.sp.runs[y.tasks[task].run].state)
    ensures TaskTrue(Yard(Tell(y.sp, y.sp.runs[y.tasks[task].run].session, Orphaned(task)),
                          y.tasks[task := y.tasks[task].(running := false, notified := true)]), other)
  {
    TellCount(y.sp, y.sp.runs[y.tasks[task].run].session, Orphaned(task), Orphaned(other));
  }

  lemma NoticeTold(y: Yard, task: nat, id: nat, other: nat)
    requires TaskTrue(y, task) && TaskTrue(y, other) && task in y.tasks && !y.tasks[task].notified
    requires Can(y.sp, Notify(y.tasks[task].run, id, task))
    ensures TaskTrue(Yard(Do(y.sp, Notify(y.tasks[task].run, id, task)),
                          y.tasks[task := y.tasks[task].(running := false, notified := true)]), other)
  {
    var a := Notify(y.tasks[task].run, id, task);
    StepNotices(y.sp, a, other);
    StepQuiet(y.sp, a, Orphaned(other));
    StepRuns(y.sp, a, y.tasks[task].run);
    if other in y.tasks { StepRuns(y.sp, a, y.tasks[other].run); }
  }

  lemma StepTask(y: Yard, d: Deed, other: nat)
    requires Inv(y) && CanDo(y, d)
    ensures TaskTrue(Done(y, d), other)
  {
    assert TaskTrue(y, other);
    match d
    case Launch(task, run) => assert TaskTrue(y, task);
    case Sweep(task, id) =>
      assert TaskTrue(y, task);
      if Swept(y, task, id) != y {
        if Terminal(y.sp.runs[y.tasks[task].run].state) {
          OrphanTold(y, task, other);
        } else {
          NoticeTold(y, task, id, other);
        }
      }
    case End(task) => assert TaskTrue(y, task);
    case Elsewhere(a) => SpineKeeps(y, a, other);
  }

  lemma StepInv(y: Yard, d: Deed)
    requires Inv(y) && CanDo(y, d)
    ensures Inv(Done(y, d))
  {
    forall task: nat ensures TaskTrue(Done(y, d), task) { StepTask(y, d, task); }
  }

  // --- every run -----------------------------------------------------------------------------

  ghost predicate Run(trace: seq<Yard>, deeds: seq<Deed>) {
    |trace| == |deeds| + 1 && CommandLife.Start(trace[0].sp) && trace[0].tasks == map[]
    && forall k :: 0 <= k < |deeds| ==> CanDo(trace[k], deeds[k]) && trace[k + 1] == Done(trace[k], deeds[k])
  }

  lemma {:induction false} RunInv(trace: seq<Yard>, deeds: seq<Deed>, k: nat)
    requires Run(trace, deeds) && k < |trace|
    ensures Inv(trace[k])
  {
    if k > 0 {
      RunInv(trace, deeds, k - 1);
      StepInv(trace[k - 1], deeds[k - 1]);
    }
  }

  /** Told exactly once: in every state of every run, a settled task has one notice command or one orphan
      warning and never both, an orphan warning only where its run is over, a task ended on purpose has
      neither, and a running one has neither yet. */
  lemma ToldExactlyOnce(trace: seq<Yard>, deeds: seq<Deed>, k: nat, task: nat)
    requires Run(trace, deeds) && k < |trace| && task in trace[k].tasks
    ensures var y, t := trace[k], trace[k].tasks[task];
      && Notices(y.sp.cmds, task) + Count(y.sp, Orphaned(task)) == One(!t.running && !t.ended)
      && (Count(y.sp, Orphaned(task)) == 1 ==> t.run in y.sp.runs && Terminal(y.sp.runs[t.run].state))
  {
    RunInv(trace, deeds, k);
    assert TaskTrue(trace[k], task);
  }

  /** The settle that tells a live run queues the notice on it and leaves it not waiting; one that comes
      second changes nothing. */
  lemma SweepDelivers(y: Yard, task: nat, id: nat)
    requires task in y.tasks && TaskTrue(y, task) && !HasId(y.sp.cmds, id)
    ensures y.tasks[task].notified ==> Swept(y, task, id) == y
    ensures !y.tasks[task].notified && !Terminal(y.sp.runs[y.tasks[task].run].state) ==>
              var out := Swept(y, task, id);
              && |out.sp.cmds| == |y.sp.cmds| + 1
              && out.sp.cmds[|y.sp.cmds|].kind == BackgroundNotice(task) && out.sp.cmds[|y.sp.cmds|].state.InQueue?
              && out.sp.cmds[|y.sp.cmds|].run == Some(y.tasks[task].run)
              && out.sp.runs[y.tasks[task].run].state != Waiting
  {
    if !y.tasks[task].notified && !Terminal(y.sp.runs[y.tasks[task].run].state) {
      var r := y.tasks[task].run;
      var added := AddCommand(y.sp, id, y.sp.runs[r].session, Some(r), BackgroundNotice(task));
      WakeRuns(added, r);
      WakeFollows(added, r);
    }
  }
}
