/** Tool calls, approvals and background tasks as the store's methods update them (packages/coordinator/
    approvals.go, orchestration.go:584-865, background.go:152-307, 491-506), over the shared tables. */
module ToolTables {
  import opened Base
  import RunTable
  import opened Journal
  import opened Spine
  import opened Commands
  import opened Tools
  import opened SpineTables
  import Background
  import Effects

  /** The call has a deadline and it is before now. */
  predicate PastDue(approvals: map<nat, Approval>, call: nat, now: nat) {
    call in approvals && approvals[call].expires.Some? && now > approvals[call].expires.value
  }

  class ToolStore {
    const spine: SpineStore
    var calls: map<nat, Call>
    var approvals: map<nat, Approval>
    var approvers: seq<string>
    var now: nat

    constructor (spine: SpineStore, approvers: seq<string>)
      ensures this.spine == spine && View() == Ledger(spine.View(), map[], map[], approvers, 0)
    {
      this.spine, this.approvers := spine, approvers;
      calls, approvals, now := map[], map[], 0;
    }

    ghost function View(): Ledger
      reads this, spine
    {
      Ledger(spine.View(), calls, approvals, approvers, now)
    }

    method Tell(run: nat, call: nat, mark: ToolMark)
      modifies spine`events, spine`last
      ensures View() == Say(old(View()), run, call, mark)
    {
      if run in spine.runs {
        var _ := spine.AppendEvent(spine.runs[run].session, ToolTold(call, mark));
      }
    }

    method TellNote(run: nat)
      modifies spine`events, spine`last
      ensures View() == Note(old(View()), run)
    {
      if run in spine.runs {
        var _ := spine.AppendEvent(spine.runs[run].session, Noted);
      }
    }

    method RequestToolApproval(run: nat, call: nat, fence: nat, hash: string, expires: Option<nat>) returns (ok: bool)
      modifies this`calls, this`approvals, spine`events, spine`last
      ensures View() == Requested(old(View()), run, call, fence, hash, expires)
      ensures ok <==> run in spine.runs && !RunTable.Terminal(spine.runs[run].state)
      ensures calls == if ok && call !in old(calls)
                       then old(calls)[call := Call(run, ApprovalPending, fence, hash, None)] else old(calls)
      ensures approvals == if ok && call !in old(calls) && call !in old(approvals)
                           then old(approvals)[call := Approval(expires, None)] else old(approvals)
    {
      ok := spine.RunActive(run);
      if !ok || call in calls { return; }
      calls := calls[call := Call(run, ApprovalPending, fence, hash, None)];
      if call !in approvals { approvals := approvals[call := Approval(expires, None)]; }
      TellNote(run);
      Tell(run, call, Asked);
    }

    method ExpireToolCall(call: nat)
      requires call in calls && calls[call].state.ApprovalPending?
      modifies this`calls, spine
      ensures View() == ExpiredCall(old(View()), call)
      ensures calls == old(calls)[call := old(calls)[call].(state := Canceled, result := Some("denied"))]
      ensures Effects.Wakes(old(spine.View()), spine.View(), Some(old(calls)[call].run))
    {
      var c := calls[call];
      calls := calls[call := c.(state := Canceled, result := Some("denied"))];
      TellNote(c.run);
      Tell(c.run, call, Withdrawn);
      var _ := spine.WakeParkedRun(c.run);
    }

    predicate Overdue(call: nat)
      reads this
    {
      call in approvals && approvals[call].expires.Some? && approvals[call].expires.value < now
    }

    method DecideToolApproval(k: Click) returns (outcome: Outcome)
      modifies this`calls, this`approvals, spine
      ensures (View(), outcome) == Clicked(old(View()), k)
      ensures outcome.NotAuthorized? <==> approvers != [] && (k.who == "" || k.who !in approvers)
      ensures outcome.Decided? <==>
                && !outcome.NotAuthorized? && k.call in old(calls) && old(calls)[k.call].state == ApprovalPending
                && !PastDue(old(approvals), k.call, now) && (k.hash == "" || k.hash == old(calls)[k.call].hash)
      ensures outcome.Decided? ==>
        var c := old(calls)[k.call];
        && calls == old(calls)[k.call := if k.approve then c.(state := Ready)
                                         else c.(state := Canceled, result := Some("denied"))]
        && (k.call in old(approvals) ==>
              approvals == old(approvals)[k.call := Approval(old(approvals)[k.call].expires, Some(k.who))])
        && (k.call !in old(approvals) ==> approvals == old(approvals))
        && Effects.Wakes(old(spine.View()), spine.View(), Some(c.run))
      ensures outcome.NotAuthorized? ==> View() == old(View())
      ensures outcome.Void? ==>
        if k.call in old(calls) && old(calls)[k.call].state == ApprovalPending
           && PastDue(old(approvals), k.call, now)
        then calls == old(calls)[k.call := old(calls)[k.call].(state := Canceled, result := Some("denied"))]
             && Effects.Wakes(old(spine.View()), spine.View(), Some(old(calls)[k.call].run))
        else View() == old(View())
    {
      if !ApproverAllowed(approvers, k.who) { return NotAuthorized; }
      if k.call !in calls || !calls[k.call].state.ApprovalPending? { return Void; }
      if Overdue(k.call) {
        ExpireToolCall(k.call);
        return Void;
      }
      var c := calls[k.call];
      if k.hash != "" && k.hash != c.hash { return Void; }
      if k.approve {
        calls := calls[k.call := c.(state := Ready)];
        Tell(c.run, k.call, Readied);
        TellNote(c.run);
      } else {
        calls := calls[k.call := c.(state := Canceled, result := Some("denied"))];
        Tell(c.run, k.call, Withdrawn);
        TellNote(c.run);
      }
      if k.call in approvals { approvals := approvals[k.call := approvals[k.call].(decidedBy := Some(k.who))]; }
      var _ := spine.WakeParkedRun(c.run);
      return Decided;
    }

    /** SweepExpiredToolApprovals over the candidates its query returned: each in its own transaction, and
        the count is of those this pass expired. */
    method SweepExpiredToolApprovals(candidates: seq<nat>) returns (swept: nat)
      modifies this`calls, spine
      ensures (View(), swept) == ExpireInTurn(old(View()), candidates)
      ensures calls.Keys == old(calls).Keys
      ensures forall call :: call in calls ==>
                calls[call] == if call in candidates && old(calls)[call].state == ApprovalPending
                               then old(calls)[call].(state := Canceled, result := Some("denied"))
                               else old(calls)[call]
      ensures swept == |PendingOf(old(calls), candidates)|
    {
      swept := 0;
      for i := 0 to |candidates|
        invariant (View(), swept) == ExpireInTurn(old(View()), candidates[..i])
      {
        assert candidates[..i + 1][..i] == candidates[..i];
        var call := candidates[i];
        if call in calls && calls[call].state.ApprovalPending? {
          ExpireToolCall(call);
          swept := swept + 1;
        }
      }
      assert candidates[..|candidates|] == candidates;
      ExpireRows(old(View()), candidates);
    }

    method BeginToolCall(run: nat, call: nat, fence: nat, hash: string) returns (ok: bool)
      modifies this`calls, spine`events, spine`last
      ensures View() == Begun(old(View()), run, call, fence, hash)
      ensures ok <==> run in spine.runs && !RunTable.Terminal(spine.runs[run].state)
      ensures ok && call !in old(calls) ==> calls == old(calls)[call := Call(run, InFlight, fence, hash, None)]
      ensures ok && call in old(calls)
              && old(calls)[call].state !in {Completed, ReconciledCompleted, ReconciledNotApplied} ==>
        var c := old(calls)[call];
        calls == old(calls)[call := c.(fence := if c.fence < fence then fence else c.fence,
                                       state := if c.state == Ready then InFlight else c.state)]
      ensures !ok || (call in old(calls)
                      && old(calls)[call].state in {Completed, ReconciledCompleted, ReconciledNotApplied}) ==>
                View() == old(View())
    {
      ok := spine.RunActive(run);
      if !ok { return; }
      if call !in calls {
        calls := calls[call := Call(run, InFlight, fence, hash, None)];
        Tell(run, call, Executing);
      } else if !Resolved(calls[call].state) {
        var c := calls[call];
        calls := calls[call := c.(fence := Max(c.fence, fence), state := if c.state.Ready? then InFlight else c.state)];
        Tell(run, call, Executing);
      }
    }

    /** The upsert reports whether it touched a row; an untouched row is read back to say why. */
    method CommitToolResult(run: nat, call: nat, fence: nat, hash: string, result: string)
      returns (answer: CommitAnswer)
      modifies this`calls, spine`events, spine`last
      ensures (View(), answer) == CommittedResult(old(View()), run, call, fence, hash, result)
      ensures answer.Terminal? <==> !(run in spine.runs && !RunTable.Terminal(spine.runs[run].state))
      ensures answer.Stale? <==>
                && !answer.Terminal? && call in old(calls) && old(calls)[call].state != Completed
                && (old(calls)[call].fence > fence || old(calls)[call].state !in {InFlight, Leased})
      ensures answer.Committed? ==>
        calls == if call !in old(calls) then old(calls)[call := Call(run, Completed, fence, hash, Some(result))]
                 else if old(calls)[call].state == Completed then old(calls)
                 else old(calls)[call := old(calls)[call].(state := Completed, result := Some(result))]
      ensures !answer.Committed? ==> View() == old(View())
    {
      if !spine.RunActive(run) { return CommitAnswer.Terminal; }
      var touched := false;
      if call !in calls {
        calls := calls[call := Call(run, Completed, fence, hash, Some(result))];
        touched := true;
      } else if Flying(calls[call].state) && calls[call].fence <= fence {
        calls := calls[call := calls[call].(state := Completed, result := Some(result))];
        touched := true;
      }
      if !touched {
        return if calls[call].state.Completed? then Committed else Stale;
      }
      Tell(run, call, Finished);
      return Committed;
    }

    method MarkToolCallUncertain(run: nat, call: nat) returns (moved: bool)
      modifies this`calls, spine`events, spine`last
      ensures View() == MarkedUncertain(old(View()), run, call)
      ensures moved <==> run in spine.runs && !RunTable.Terminal(spine.runs[run].state)
                         && call in old(calls) && old(calls)[call].state in {InFlight, Leased}
      ensures calls == if moved then old(calls)[call := old(calls)[call].(state := Uncertain)] else old(calls)
    {
      if !spine.RunActive(run) || call !in calls || !Flying(calls[call].state) { return false; }
      calls := calls[call := calls[call].(state := Uncertain)];
      Tell(run, call, Doubted);
      return true;
    }

    method ReconcileToolCall(call: nat, to: CallState, result: Option<string>)
      requires Resolution(to)
      modifies this`calls, spine`events, spine`last
      ensures View() == ReconciledCall(old(View()), call, to, result)
      ensures calls == if call in old(calls) && old(calls)[call].state == Uncertain
                       then old(calls)[call := old(calls)[call].(
                              state := to, result := if result.Some? then result else old(calls)[call].result)]
                       else old(calls)
    {
      if call !in calls || !calls[call].state.Uncertain? { return; }
      var c := calls[call];
      calls := calls[call := c.(state := to, result := if result.Some? then result else c.result)];
      Tell(c.run, call, Reconciled);
    }
  }

  /** The sweep, candidate after candidate. */
  function ExpireInTurn(t: Ledger, candidates: seq<nat>): (Ledger, nat) {
    if candidates == [] then (t, 0)
    else
      var (u, n) := ExpireInTurn(t, candidates[..|candidates| - 1]);
      var call := candidates[|candidates| - 1];
      if AtGate(u, call) then (ExpiredCall(u, call), n + 1) else (u, n)
  }

  /** The candidates still at the gate, each once. */
  function PendingOf(calls: map<nat, Call>, candidates: seq<nat>): set<nat> {
    set call | call in candidates && call in calls && calls[call].state == ApprovalPending
  }

  /** A pass expires each candidate still at the gate, leaves every other row, and counts those. */
  lemma {:induction false} ExpireRows(t: Ledger, candidates: seq<nat>)
    ensures var (u, n) := ExpireInTurn(t, candidates);
      && u.calls.Keys == t.calls.Keys && n == |PendingOf(t.calls, candidates)|
      && forall call :: call in t.calls ==>
           u.calls[call] == if call in candidates && t.calls[call].state == ApprovalPending
                            then t.calls[call].(state := Canceled, result := Some("denied")) else t.calls[call]
  {
    if candidates == [] {
      assert PendingOf(t.calls, candidates) == {};
    } else {
      var k := |candidates| - 1;
      var before, last := candidates[..k], candidates[k];
      ExpireRows(t, before);
      assert candidates == before + [last];
      var pending := PendingOf(t.calls, before);
      if last in t.calls && t.calls[last].state == ApprovalPending && last !in before {
        assert PendingOf(t.calls, candidates) == pending + {last};
      } else {
        assert PendingOf(t.calls, candidates) == pending;
      }
    }
  }

  class TaskStore {
    const spine: SpineStore
    var tasks: map<nat, Background.Task>

    constructor (spine: SpineStore)
      ensures this.spine == spine && View() == Background.Yard(spine.View(), map[])
    {
      this.spine, tasks := spine, map[];
    }

    ghost function View(): Background.Yard
      reads this, spine
    {
      Background.Yard(spine.View(), tasks)
    }

    /** settleBackgroundTask; false is a claim somebody else took. */
    method SettleTask(task: nat, id: nat) returns (told: bool)
      modifies this, spine
      ensures View() == Background.Swept(old(View()), task, id)
      ensures told <==> Background.Claims(old(View()), task, id)
      ensures told <==> task in old(tasks) && old(tasks)[task].run in old(spine.runs) && !old(tasks)[task].notified
                        && forall k :: 0 <= k < |old(spine.cmds)| ==> old(spine.cmds)[k].id != id
      ensures tasks == if told then old(tasks)[task := old(tasks)[task].(running := false, notified := true)]
                       else old(tasks)
      ensures told ==>
        var r := old(tasks)[task].run;
        var home := old(spine.runs)[r].session;
        if RunTable.Terminal(old(spine.runs)[r].state)
        then spine.cmds == old(spine.cmds) && spine.runs == old(spine.runs) && spine.jobs == old(spine.jobs)
             && |spine.events| == |old(spine.events)| + 1
             && spine.events[|old(spine.events)|].session == home
             && spine.events[|old(spine.events)|].body == Orphaned(task)
        else spine.cmds == old(spine.cmds) + [Cmd(id, home, Some(r), BackgroundNotice(task), InQueue, None)]
             && Effects.Wakes(old(spine.View()), spine.View(), Some(r))
    {
      var taken := spine.FindId(id);
      if task !in tasks || tasks[task].run !in spine.runs || tasks[task].notified || taken { return false; }
      var t := tasks[task];
      tasks := tasks[task := t.(running := false, notified := true)];
      if RunTable.Terminal(spine.runs[t.run].state) {
        var _ := spine.AppendEvent(spine.runs[t.run].session, Orphaned(task));
        return true;
      }
      spine.InsertCommand(id, spine.runs[t.run].session, Some(t.run), BackgroundNotice(task));
      var _ := spine.WakeParkedRun(t.run);
      return true;
    }

    method SettleEndedTask(task: nat)
      modifies this`tasks
      ensures View() == Background.Ended(old(View()), task)
      ensures tasks == if task in old(tasks) && old(tasks)[task].run in spine.runs && old(tasks)[task].running
                       then old(tasks)[task := Background.Task(old(tasks)[task].run, false, true, true)] else old(tasks)
    {
      if task in tasks && tasks[task].run in spine.runs && tasks[task].running {
        tasks := tasks[task := tasks[task].(running := false, notified := true, ended := true)];
      }
    }

    /** SweepFinishedBackgroundTasks over the tasks read as running: those the observer found finished, each
        settled in its own transaction under a fresh command id. */
    method SweepFinished(seen: seq<(nat, bool)>, ids: seq<nat>) returns (settled: nat)
      requires |ids| == |seen|
      modifies this, spine
      ensures View() == SweepEach(old(View()), seen, ids) && settled == SweepCount(old(View()), seen, ids)
      ensures forall task :: task in old(tasks) && (task, true) !in seen ==>
                task in tasks && tasks[task] == old(tasks)[task]
      ensures forall k :: 0 <= k < |seen| && seen[k].1 && seen[k].0 in old(tasks)
                          && old(tasks)[seen[k].0].run in old(spine.runs) ==>
                (seen[k].0 in tasks && tasks[seen[k].0].notified) || HasId(spine.cmds, ids[k])
    {
      settled := 0;
      for i := 0 to |seen|
        invariant View() == SweepEach(old(View()), seen[..i], ids[..i])
        invariant settled == SweepCount(old(View()), seen[..i], ids[..i])
      {
        assert seen[..i + 1][..i] == seen[..i] && ids[..i + 1][..i] == ids[..i];
        if seen[i].1 {
          var told := SettleTask(seen[i].0, ids[i]);
          if told { settled := settled + 1; }
        }
      }
      assert seen[..|seen|] == seen && ids[..|seen|] == ids;
      SweepTasks(old(View()), seen, ids);
    }
  }

  function SweepEach(y: Background.Yard, seen: seq<(nat, bool)>, ids: seq<nat>): Background.Yard
    requires |ids| == |seen|
  {
    if seen == [] then y
    else
      var n := |seen| - 1;
      var before := SweepEach(y, seen[..n], ids[..n]);
      if seen[n].1 then Background.Swept(before, seen[n].0, ids[n]) else before
  }

  /** What one settle may change: its own task, and the end of the command table. */
  predicate Settles(was: Background.Yard, now: Background.Yard) {
    && was.tasks.Keys == now.tasks.Keys && was.sp.runs.Keys == now.sp.runs.Keys
    && (forall task :: task in was.tasks ==> now.tasks[task].run == was.tasks[task].run
                                             && (was.tasks[task].notified ==> now.tasks[task].notified))
    && was.sp.cmds <= now.sp.cmds
  }

  lemma SettleRows(y: Background.Yard, task: nat, id: nat)
    ensures var z := Background.Swept(y, task, id);
      && Settles(y, z) && (forall other :: other in y.tasks && other != task ==> z.tasks[other] == y.tasks[other])
      && (task in y.tasks && y.tasks[task].run in y.sp.runs ==> z.tasks[task].notified || HasId(z.sp.cmds, id))
  {
    if Background.Claims(y, task, id) && !RunTable.Terminal(y.sp.runs[y.tasks[task].run].state) {
      var r := y.tasks[task].run;
      Effects.WakeRows(AddCommand(y.sp, id, y.sp.runs[r].session, Some(r), BackgroundNotice(task)), r);
    }
  }

  lemma IdStays(was: seq<Cmd>, now: seq<Cmd>, id: nat)
    requires was <= now && HasId(was, id)
    ensures HasId(now, id)
  {
    var k :| 0 <= k < |was| && was[k].id == id;
    assert now[k].id == id;
  }

  /** A pass leaves every task not observed finished as it was, and of each that was, somebody has now told:
      unless the id it was given for the notice was taken. */
  lemma {:induction false} SweepTasks(y: Background.Yard, seen: seq<(nat, bool)>, ids: seq<nat>)
    requires |ids| == |seen|
    ensures var z := SweepEach(y, seen, ids);
      && Settles(y, z)
      && (forall task :: task in y.tasks && (task, true) !in seen ==> z.tasks[task] == y.tasks[task])
      && forall k :: 0 <= k < |seen| && seen[k].1 && seen[k].0 in y.tasks && y.tasks[seen[k].0].run in y.sp.runs ==>
           z.tasks[seen[k].0].notified || HasId(z.sp.cmds, ids[k])
  {
    if seen != [] {
      var n := |seen| - 1;
      SweepTasks(y, seen[..n], ids[..n]);
      var before, z := SweepEach(y, seen[..n], ids[..n]), SweepEach(y, seen, ids);
      assert seen == seen[..n] + [seen[n]];
      SettleRows(before, seen[n].0, ids[n]);
      assert Settles(before, z);
      forall k | 0 <= k < n && seen[k].1 && seen[k].0 in y.tasks && y.tasks[seen[k].0].run in y.sp.runs
        ensures z.tasks[seen[k].0].notified || HasId(z.sp.cmds, ids[k]) {
        assert seen[..n][k] == seen[k] && ids[..n][k] == ids[k];
        if !before.tasks[seen[k].0].notified { IdStays(before.sp.cmds, z.sp.cmds, ids[k]); }
      }
    }
  }

  /** The settles of a pass that won their claim. */
  function SweepCount(y: Background.Yard, seen: seq<(nat, bool)>, ids: seq<nat>): nat
    requires |ids| == |seen|
  {
    if seen == [] then 0
    else
      var n := |seen| - 1;
      var before := SweepEach(y, seen[..n], ids[..n]);
      SweepCount(y, seen[..n], ids[..n]) + (if seen[n].1 && Background.Claims(before, seen[n].0, ids[n]) then 1 else 0)
  }

  /** However stale the list a sweeper works from, and whatever other sweepers do in between, a pass keeps
      every task told at most once. */
  lemma {:induction false} SweepKeeps(y: Background.Yard, seen: seq<(nat, bool)>, ids: seq<nat>)
    requires |ids| == |seen| && Background.Inv(y)
    ensures Background.Inv(SweepEach(y, seen, ids))
  {
    if seen != [] {
      var n := |seen| - 1;
      SweepKeeps(y, seen[..n], ids[..n]);
      var before := SweepEach(y, seen[..n], ids[..n]);
      Background.StepInv(before, Background.Sweep(seen[n].0, ids[n]));
    }
  }
}
