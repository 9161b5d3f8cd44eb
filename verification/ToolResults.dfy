/** The approval gate and the tool ledger over every interleaving of clicks, sweeps, attempts and
    reconcilers. */
module ToolResults {
  import opened Base
  import opened Journal
  import opened Spine
  import opened Commands
  import opened Quiet
  import opened Tools
  import opened ToolLedger

  ghost predicate Run(trace: seq<Ledger>, deeds: seq<Deed>) {
    |trace| == |deeds| + 1 && trace[0].calls == map[] && trace[0].approvals == map[]
    && Told(trace[0].sp.log.events) == multiset{}
    && forall k :: 0 <= k < |deeds| ==> CanDo(trace[k], deeds[k]) && trace[k + 1] == Done(trace[k], deeds[k])
  }

  lemma {:induction false} RunInv(trace: seq<Ledger>, deeds: seq<Deed>, k: nat)
    requires Run(trace, deeds) && k < |trace|
    ensures Inv(trace[k])
  {
    if k > 0 {
      RunInv(trace, deeds, k - 1);
      StepInv(trace[k - 1], deeds[k - 1]);
    }
  }

  // --- the gate ------------------------------------------------------------------------------

  /** A step makes a call ready exactly when it is an approving click that binds: from an allowed
      principal, on a call still at the gate, not past its deadline, and with the call's own hash or none. */
  lemma GateExact(t: Ledger, d: Deed, call: nat)
    requires CanDo(t, d)
    ensures call in Done(t, d).calls && Done(t, d).calls[call].state.Ready?
            && !(call in t.calls && t.calls[call].state.Ready?)
            <==> d.Decide? && d.click.call == call && d.click.approve && Binding(t, d.click)
  {
    StepCalls(t, d);
  }

  /** A click that names a hash opens the gate only with the call's own. */
  lemma NamedHashMatches(t: Ledger, k: Click)
    requires AtGate(t, k.call) && k.hash != "" && Clicked(t, k).0.calls[k.call].state.Ready?
    ensures k.hash == t.calls[k.call].hash && ApproverAllowed(t.approvers, k.who) && !Late(t, k.call)
  {
    ClickCalls(t, k);
  }

  /** A click that names none is not checked against the call at all: it approves whatever is pending. */
  lemma EmptyHashApproves(t: Ledger, call: nat, who: string)
    requires AtGate(t, call) && !Late(t, call) && ApproverAllowed(t.approvers, who)
    ensures var (u, outcome) := Clicked(t, Click(call, who, true, ""));
      outcome.Decided? && u.calls[call].state.Ready?
  {
    ClickCalls(t, Click(call, who, true, ""));
  }

  /** A click that does not decide leaves everything as it was, or finds the deadline past and expires. */
  lemma VoidClick(t: Ledger, k: Click)
    ensures Clicked(t, k).1.Decided? <==> Binding(t, k)
    ensures !Clicked(t, k).1.Decided? ==>
              Clicked(t, k).0 == t
              || (AtGate(t, k.call) && Late(t, k.call) && Clicked(t, k).0 == ExpiredCall(t, k.call))
  {
  }

  lemma WakeAwakes(t: Ledger, run: nat)
    ensures run in Wake(t, run).sp.runs ==> !Wake(t, run).sp.runs[run].state.Waiting?
  {
    WakeRuns(t.sp, run);
  }

  lemma ExpiryAwakes(t: Ledger, call: nat)
    requires AtGate(t, call)
    ensures var run := t.calls[call].run; var out := ExpiredCall(t, call);
      run in out.sp.runs ==> !out.sp.runs[run].state.Waiting?
  {
    var c := t.calls[call];
    WakeAwakes(Say(Note(Put(t, call, c.(state := Canceled, result := Some("denied"))), c.run),
               c.run, call, Withdrawn), c.run);
  }

  lemma DecisionAwakes(t: Ledger, k: Click)
    requires AtGate(t, k.call)
    ensures var run := t.calls[k.call].run; var out := DecidedCall(t, k);
      run in out.sp.runs ==> !out.sp.runs[run].state.Waiting?
  {
    var run := t.calls[k.call].run;
    var recorded := ClickSettled(t, k).(approvals :=
      if k.call in t.approvals then t.approvals[k.call := t.approvals[k.call].(decidedBy := Some(k.who))]
      else t.approvals);
    WakeAwakes(recorded, run);
    assert DecidedCall(t, k) == Wake(recorded, run);
  }

  /** Whatever step takes a call out of the gate, its run is not waiting once that step has committed. */
  lemma ExitAwakes(t: Ledger, d: Deed, call: nat)
    requires Inv(t) && CanDo(t, d) && AtGate(t, call) && !AtGate(Done(t, d), call)
    ensures t.calls[call].run in Done(t, d).sp.runs && !Done(t, d).sp.runs[t.calls[call].run].state.Waiting?
  {
    OnlyExits(t, d, call);
    StepKnown(t, d, t.calls[call].run);
    ExpiryAwakes(t, call);
    if d.Decide? { DecisionAwakes(t, d.click); }
  }

  /** Two ways out: the deadline and the decision. */
  lemma OnlyExits(t: Ledger, d: Deed, call: nat)
    requires CanDo(t, d) && AtGate(t, call) && !AtGate(Done(t, d), call)
    ensures (d.Decide? && d.click.call == call && Done(t, d) == DecidedCall(t, d.click))
            || Done(t, d) == ExpiredCall(t, call)
  {
    StepCalls(t, d);
  }

  /** A deadline once past stays past, so the sweep's unlocked read of its candidates is still true when
      it comes to expire them. */
  lemma LateStays(t: Ledger, d: Deed, call: nat)
    requires CanDo(t, d) && Late(t, call)
    ensures Late(Done(t, d), call)
  {
    StepApprovals(t, d, call);
    StepClock(t, d);
  }

  lemma StepClock(t: Ledger, d: Deed)
    requires CanDo(t, d)
    ensures Done(t, d).now >= t.now
  {
  }

  /** In every state of every run a gated call has left the gate at most once: one ready or one withdrawn
      event, and one of them exactly when it is no longer pending. */
  lemma LeavesOnce(trace: seq<Ledger>, deeds: seq<Deed>, k: nat, call: nat)
    requires Run(trace, deeds) && k < |trace| && call in trace[k].approvals
    ensures Count(trace[k].sp, ToolTold(call, Readied)) + Count(trace[k].sp, ToolTold(call, Withdrawn))
            == One(!AtGate(trace[k], call))
  {
    RunInv(trace, deeds, k);
    assert GateRow(trace[k].calls, call in trace[k].approvals, call);
    assert MarksOf(trace[k].sp, call) == MarksDue(trace[k].calls, call in trace[k].approvals, call);
  }

  /** What a step never undoes: a call out of the gate, and a call settled. */
  predicate RowHolds(was: Call, now: Call) {
    && (!was.state.ApprovalPending? ==> !now.state.ApprovalPending?)
    && (Final(was.state) ==> now.state == was.state && now.result == was.result)
  }

  predicate Final(s: CallState) {
    Resolved(s) || s.Canceled? || s.ManualResolution?
  }

  predicate TableHolds(was: map<nat, Call>, now: map<nat, Call>) {
    forall call :: call in was ==> call in now && RowHolds(was[call], now[call])
  }

  lemma StepHolds(t: Ledger, d: Deed)
    requires CanDo(t, d)
    ensures TableHolds(t.calls, Done(t, d).calls)
  {
    forall call | call in t.calls ensures call in Done(t, d).calls && RowHolds(t.calls[call], Done(t, d).calls[call]) {
      RowsFollow(t, d, call);
    }
  }

  function Tables(trace: seq<Ledger>): (out: seq<map<nat, Call>>)
    ensures |out| == |trace| && forall k :: 0 <= k < |trace| ==> out[k] == trace[k].calls
  {
    seq(|trace|, k requires 0 <= k < |trace| => trace[k].calls)
  }

  lemma {:induction false} HoldsChain(tables: seq<map<nat, Call>>, j: nat, k: nat)
    requires j <= k < |tables|
    requires forall n, m :: 0 <= n && m == n + 1 && m < |tables| ==> TableHolds(tables[n], tables[m])
    ensures TableHolds(tables[j], tables[k])
  {
    if j < k {
      HoldsChain(tables, j, k - 1);
      assert TableHolds(tables[k - 1], tables[k]);
    }
  }

  lemma RunHolds(trace: seq<Ledger>, deeds: seq<Deed>, j: nat, k: nat)
    requires Run(trace, deeds) && j <= k < |trace|
    ensures TableHolds(trace[j].calls, trace[k].calls)
  {
    var tables := Tables(trace);
    forall n, m | 0 <= n && m == n + 1 && m < |tables| ensures TableHolds(tables[n], tables[m]) {
      StepHolds(trace[n], deeds[n]);
    }
    HoldsChain(tables, j, k);
  }

  /** And it never comes back. */
  lemma NeverReturns(trace: seq<Ledger>, deeds: seq<Deed>, j: nat, k: nat, call: nat)
    requires Run(trace, deeds) && j <= k < |trace| && call in trace[j].calls && !AtGate(trace[j], call)
    ensures call in trace[k].calls && !AtGate(trace[k], call)
  {
    RunHolds(trace, deeds, j, k);
  }

  // --- the ledger ----------------------------------------------------------------------------

  /** A commit that succeeds leaves the row completed: with this result, unless it already was. */
  lemma CommitDurable(t: Ledger, run: nat, call: nat, fence: nat, hash: string, result: string)
    requires CommittedResult(t, run, call, fence, hash, result).1.Committed?
    ensures var u := CommittedResult(t, run, call, fence, hash, result).0;
      && call in u.calls && u.calls[call].state.Completed?
      && (if call in t.calls && t.calls[call].state.Completed? then u == t else u.calls[call].result == Some(result))
  {
  }

  /** A commit under a fence the row has passed, or after the row was doubted or settled some other way,
      is refused and changes nothing. */
  lemma StaleCommitRefused(t: Ledger, run: nat, call: nat, fence: nat, hash: string, result: string)
    requires Live(t.sp, run) && call in t.calls && !t.calls[call].state.Completed?
    ensures CommittedResult(t, run, call, fence, hash, result).1.Stale?
            <==> fence < t.calls[call].fence || !Flying(t.calls[call].state)
    ensures CommittedResult(t, run, call, fence, hash, result).1.Stale?
            ==> CommittedResult(t, run, call, fence, hash, result).0 == t
  {
  }

  /** No result is committed for a run that has ended. */
  lemma TerminalCommitRefused(t: Ledger, run: nat, call: nat, fence: nat, hash: string, result: string)
    ensures CommittedResult(t, run, call, fence, hash, result).1.Terminal? <==> !Live(t.sp, run)
    ensures !Live(t.sp, run) ==> CommittedResult(t, run, call, fence, hash, result).0 == t
  {
  }

  /** Completion is journaled once, and doubt once, and one reconciliation for a doubt that was settled. */
  lemma ToldOnce(trace: seq<Ledger>, deeds: seq<Deed>, k: nat, call: nat)
    requires Run(trace, deeds) && k < |trace| && call in trace[k].calls
    ensures var sp, s := trace[k].sp, trace[k].calls[call].state;
      && Count(sp, ToolTold(call, Finished)) == One(s.Completed?)
      && Count(sp, ToolTold(call, Doubted)) == One(s.Uncertain? || Resolution(s))
      && Count(sp, ToolTold(call, Reconciled)) == One(Resolution(s))
  {
    RunInv(trace, deeds, k);
    assert MarksOf(trace[k].sp, call) == MarksDue(trace[k].calls, call in trace[k].approvals, call);
  }

  /** A settled call - completed, withdrawn or reconciled - keeps its state and its result for good. */
  lemma SettledForGood(trace: seq<Ledger>, deeds: seq<Deed>, j: nat, k: nat, call: nat)
    requires Run(trace, deeds) && j <= k < |trace| && call in trace[j].calls && Final(trace[j].calls[call].state)
    ensures call in trace[k].calls && trace[k].calls[call].state == trace[j].calls[call].state
    ensures trace[k].calls[call].result == trace[j].calls[call].result
  {
    RunHolds(trace, deeds, j, k);
  }

  /** tool_call.executing.v1 is told for every pre-write that finds its row unresolved - withdrawn, doubted
      or still at the gate included - and not only for a fresh one. */
  lemma BeginTellsUnlessResolved(t: Ledger, run: nat, call: nat, fence: nat, hash: string)
    requires CanDo(t, Begin(run, call, fence, hash)) && KnownRuns(t)
    ensures Count(Begun(t, run, call, fence, hash).sp, ToolTold(call, Executing))
            == Count(t.sp, ToolTold(call, Executing)) + 1
            <==> Live(t.sp, run) && !(call in t.calls && Resolved(t.calls[call].state))
  {
    BeginSays(t, run, call, fence, hash, ToolTold(call, Executing));
  }
}
