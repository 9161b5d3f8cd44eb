/** The attempt that asked for approval parks its run in a second transaction (apps/control-plane/internal/
    execution/tool_dispatch.go:46-54, 179-224, approval.go:72-87), and the wake leaves a run that is not yet
    waiting alone (packages/coordinator/approvals.go:551-563). Here a wait with cause ForApproval is that park. */
module ToolWaits {
  import opened Base
  import opened RunTable
  import opened Spine
  import opened Commands
  import opened Tools
  import opened ToolLedger
  import ToolResults

  /** Some call of the run is still at the gate: a click or the deadline will wake the run. */
  predicate Awaited(calls: map<nat, Call>, r: nat) {
    exists call :: call in calls && calls[call].run == r && calls[call].state.ApprovalPending?
  }

  predicate ParkedForApproval(runs: map<nat, Run>, r: nat) {
    r in runs && runs[r].state.Waiting? && runs[r].cause == Some(ForApproval)
  }

  /** Not parked for an approval, or for one that somebody can still give. */
  predicate Answerable(t: Ledger, r: nat) {
    ParkedForApproval(t.sp.runs, r) ==> Awaited(t.calls, r)
  }

  /** The park that comes after its own answer. */
  predicate LatePark(t: Ledger, d: Deed, r: nat) {
    d == Elsewhere(Drive(r, Wait, Some(ForApproval))) && !Awaited(t.calls, r)
  }

  // --- what a step does to the runs ----------------------------------------------------------

  /** The call a step takes out of the gate. */
  function Exits(t: Ledger, d: Deed): Option<nat>
    requires CanDo(t, d)
  {
    match d
    case Decide(k) =>
      if Binding(t, k) || (ApproverAllowed(t.approvers, k.who) && AtGate(t, k.call) && Late(t, k.call))
      then Some(k.call) else None
    case Expire(call) => if AtGate(t, call) then Some(call) else None
    case _ => None
  }

  lemma ExitRuns(t: Ledger, d: Deed)
    requires CanDo(t, d) && Exits(t, d).Some?
    ensures var call := Exits(t, d).value;
      AtGate(t, call) && Done(t, d).sp.runs == Woken(t.sp.runs, t.calls[call].run)
  {
    var call := Exits(t, d).value;
    var run := t.calls[call].run;
    if d.Decide? && Binding(t, d.click) {
      var recorded := ClickSettled(t, d.click).(approvals :=
        if call in t.approvals then t.approvals[call := t.approvals[call].(decidedBy := Some(d.click.who))]
        else t.approvals);
      assert Done(t, d) == DecidedCall(t, d.click) == Wake(recorded, run);
      WakeRuns(recorded.sp, run);
    } else {
      assert Done(t, d) == ExpiredCall(t, call);
      var gone := Put(t, call, t.calls[call].(state := CallState.Canceled, result := Some("denied")));
      WakeRuns(Say(Note(gone, run), run, call, Withdrawn).sp, run);
    }
  }

  lemma OtherRuns(t: Ledger, d: Deed)
    requires CanDo(t, d) && Exits(t, d).None? && !d.Elsewhere?
    ensures Done(t, d).sp.runs == t.sp.runs
  {
  }

  /** A call at the gate stays there unless it is the one that exits. */
  lemma GateStays(t: Ledger, d: Deed, call: nat)
    requires CanDo(t, d) && AtGate(t, call) && Exits(t, d) != Some(call)
    ensures AtGate(Done(t, d), call) && Done(t, d).calls[call].run == t.calls[call].run
  {
    StepCalls(t, d);
    RowsAfter(t, d, call);
  }

  lemma AwaitedStays(t: Ledger, d: Deed, r: nat)
    requires CanDo(t, d) && Awaited(t.calls, r) && (Exits(t, d).Some? ==> t.calls[Exits(t, d).value].run != r)
    ensures Awaited(Done(t, d).calls, r)
  {
    var call :| call in t.calls && t.calls[call].run == r && t.calls[call].state.ApprovalPending?;
    GateStays(t, d, call);
  }

  // --- no approval is answered to nobody -----------------------------------------------------

  lemma ElsewhereAnswerable(t: Ledger, a: Action, r: nat)
    requires CanDo(t, Elsewhere(a)) && Answerable(t, r)
    ensures Answerable(Done(t, Elsewhere(a)), r) <==> !LatePark(t, Elsewhere(a), r)
  {
    StepEffect(t.sp, a);
    assert Done(t, Elsewhere(a)).calls == t.calls;
  }

  lemma ExitAnswerable(t: Ledger, d: Deed, r: nat)
    requires CanDo(t, d) && Exits(t, d).Some? && Answerable(t, r)
    ensures Answerable(Done(t, d), r)
  {
    ExitRuns(t, d);
    if t.calls[Exits(t, d).value].run != r && ParkedForApproval(t.sp.runs, r) { AwaitedStays(t, d, r); }
  }

  /** One step: a run parked for an approval that can still be answered stops being so exactly when it is the
      park itself that comes late, after the last of its calls was decided or expired. No decision and no
      expiry leaves its run parked. */
  lemma AnswerableExactly(t: Ledger, d: Deed, r: nat)
    requires CanDo(t, d) && Answerable(t, r)
    ensures Answerable(Done(t, d), r) <==> !LatePark(t, d, r)
  {
    if d.Elsewhere? {
      ElsewhereAnswerable(t, d.a, r);
    } else if Exits(t, d).Some? {
      ExitAnswerable(t, d, r);
    } else {
      OtherRuns(t, d);
      if ParkedForApproval(t.sp.runs, r) { AwaitedStays(t, d, r); }
    }
  }

  /** What brings such a run on: another of its calls comes to the gate, or something else resumes, wakes or ends
      it. */
  predicate Reaches(t: Ledger, d: Deed, r: nat) {
    (d.Request? && d.run == r && d.call !in t.calls) || (d.Elsewhere? && LeavesWait(t.sp, d.a, r))
  }

  /** Only a new request brings a call to the gate. */
  lemma AwaitedCame(t: Ledger, d: Deed, r: nat)
    requires CanDo(t, d) && !Awaited(t.calls, r)
    ensures Awaited(Done(t, d).calls, r) <==> d.Request? && d.run == r && Live(t.sp, r) && d.call !in t.calls
  {
    StepCalls(t, d);
    var now := CallsAfter(t, d);
    if d.Request? && d.run == r && Live(t.sp, r) && d.call !in t.calls {
      assert now[d.call].run == r && now[d.call].state.ApprovalPending?;
    } else {
      forall call | call in now && now[call].run == r ensures !now[call].state.ApprovalPending? {
        if call in t.calls { RowsAfter(t, d, call); }
      }
    }
  }

  /** No click and no deadline will: there is nothing at the gate for them. */
  lemma UnansweredUntil(t: Ledger, d: Deed, r: nat)
    requires CanDo(t, d) && !Answerable(t, r)
    ensures Answerable(Done(t, d), r) <==> Reaches(t, d, r)
    ensures !LatePark(t, d, r)
  {
    AwaitedCame(t, d, r);
    if d.Elsewhere? {
      StepEffect(t.sp, d.a);
      WaitLeft(t.sp, d.a, r);
    } else if Exits(t, d).Some? {
      ExitRuns(t, d);
      assert t.calls[Exits(t, d).value].run != r;
    } else {
      OtherRuns(t, d);
    }
  }

  /** Parked late at step i, and nothing since has brought it on. */
  ghost predicate LateSince(trace: seq<Ledger>, deeds: seq<Deed>, i: nat, k: nat, r: nat) {
    i < k < |trace| == |deeds| + 1 && LatePark(trace[i], deeds[i], r)
    && forall j :: i < j < k ==> !Reaches(trace[j], deeds[j], r)
  }

  ghost predicate ParkedLate(trace: seq<Ledger>, deeds: seq<Deed>, k: nat, r: nat) {
    exists i: nat :: LateSince(trace, deeds, i, k, r)
  }

  lemma LateNext(trace: seq<Ledger>, deeds: seq<Deed>, k: nat, r: nat)
    requires k < |deeds| && |trace| == |deeds| + 1
    ensures ParkedLate(trace, deeds, k + 1, r)
            <==> LatePark(trace[k], deeds[k], r)
                 || (ParkedLate(trace, deeds, k, r) && !Reaches(trace[k], deeds[k], r))
  {
    var n := k + 1;
    if LatePark(trace[k], deeds[k], r) { assert LateSince(trace, deeds, k, n, r); }
    if ParkedLate(trace, deeds, k, r) && !Reaches(trace[k], deeds[k], r) {
      var i: nat :| LateSince(trace, deeds, i, k, r);
      assert LateSince(trace, deeds, i, n, r);
    }
    if i: nat :| LateSince(trace, deeds, i, n, r) && i < k { assert LateSince(trace, deeds, i, k, r); }
  }

  /** One step, in either direction. */
  lemma AnswerableNext(t: Ledger, d: Deed, r: nat)
    requires CanDo(t, d)
    ensures !Answerable(Done(t, d), r) <==> LatePark(t, d, r) || (!Answerable(t, r) && !Reaches(t, d, r))
  {
    if Answerable(t, r) { AnswerableExactly(t, d, r); } else { UnansweredUntil(t, d, r); }
  }

  /** In every state of every run, a run is parked for an approval that nobody can give exactly when it parked
      late and nothing else has brought it on since. */
  lemma {:induction false} NoLostAnswer(trace: seq<Ledger>, deeds: seq<Deed>, k: nat, r: nat)
    requires ToolResults.Run(trace, deeds) && k < |trace| && Answerable(trace[0], r)
    ensures !Answerable(trace[k], r) <==> ParkedLate(trace, deeds, k, r)
  {
    if k > 0 {
      NoLostAnswer(trace, deeds, k - 1, r);
      LateNext(trace, deeds, k - 1, r);
      AnswerableNext(trace[k - 1], deeds[k - 1], r);
    }
  }

  /** Late parks happen, for the park does not look again: the click that decides a running run's only open
      call before it parks wakes nobody, and the park then leaves it waiting with nothing at the gate. */
  lemma DecidedBeforeParked(t: Ledger, k: Click)
    requires Binding(t, k) && t.calls[k.call].run in t.sp.runs
    requires var r := t.calls[k.call].run;
      && t.sp.runs[r].state.Running?
      && forall call | call in t.calls && t.calls[call].run == r ::
           t.calls[call].state.ApprovalPending? ==> call == k.call
    ensures var r := t.calls[k.call].run;
      var t1 := Done(t, Decide(k));
      var park := Elsewhere(Drive(r, Wait, Some(ForApproval)));
      && t1.sp.runs == t.sp.runs && CanDo(t1, park)
      && ParkedForApproval(Done(t1, park).sp.runs, r) && !Awaited(Done(t1, park).calls, r)
  {
    var r := t.calls[k.call].run;
    var t1 := Done(t, Decide(k));
    ExitRuns(t, Decide(k));
    ClickCalls(t, k);
    StepEffect(t1.sp, Drive(r, Wait, Some(ForApproval)));
    assert !Awaited(t1.calls, r);
  }
}
