/** What holds of the gate and the ledger in every reachable state (packages/coordinator/approvals.go:315-521,
    orchestration.go:573-742, 820-865). */
module ToolLedger {
  import opened Base
  import opened Journal
  import opened Spine
  import opened Commands
  import opened Quiet
  import opened Tools
  import CommandLife

  // --- what a step tells ---------------------------------------------------------------------

  /** The one tool event a step journals, if any. */
  function Says(t: Ledger, d: Deed): Option<Body>
    requires CanDo(t, d)
  {
    match d
    case Request(run, call, _, _, _) =>
      if Live(t.sp, run) && call !in t.calls then Some(ToolTold(call, Asked)) else None
    case Decide(k) =>
      if !ApproverAllowed(t.approvers, k.who) || !AtGate(t, k.call) then None
      else if Late(t, k.call) then Some(ToolTold(k.call, Withdrawn))
      else if !Binding(t, k) then None
      else Some(ToolTold(k.call, if k.approve then Readied else Withdrawn))
    case Expire(call) => if AtGate(t, call) then Some(ToolTold(call, Withdrawn)) else None
    case Begin(run, call, _, _) =>
      if Live(t.sp, run) && !(call in t.calls && Resolved(t.calls[call].state))
      then Some(ToolTold(call, Executing)) else None
    case Commit(run, call, fence, _, _) =>
      if Live(t.sp, run) && (call in t.calls ==> Flying(t.calls[call].state) && t.calls[call].fence <= fence)
      then Some(ToolTold(call, Finished)) else None
    case MarkUncertain(run, call) =>
      if Live(t.sp, run) && call in t.calls && Flying(t.calls[call].state) then Some(ToolTold(call, Doubted)) else None
    case Reconcile(call, _, _) =>
      if call in t.calls && t.calls[call].state.Uncertain? then Some(ToolTold(call, Reconciled)) else None
    case _ => None
  }

  lemma SayCount(t: Ledger, run: nat, call: nat, mark: ToolMark, b: Body)
    requires run in t.sp.runs
    ensures Count(Say(t, run, call, mark).sp, b) == Count(t.sp, b) + One(b == ToolTold(call, mark))
    ensures Say(t, run, call, mark).sp.runs == t.sp.runs
  {
    TellCount(t.sp, t.sp.runs[run].session, ToolTold(call, mark), b);
  }

  lemma NoteCount(t: Ledger, run: nat, b: Body)
    requires b.ToolTold?
    ensures Count(Note(t, run).sp, b) == Count(t.sp, b) && Note(t, run).sp.runs == t.sp.runs
  {
    if run in t.sp.runs { TellCount(t.sp, t.sp.runs[run].session, Noted, b); }
  }

  lemma WakeCount(t: Ledger, run: nat, b: Body)
    requires b.ToolTold?
    ensures Count(Wake(t, run).sp, b) == Count(t.sp, b)
  {
    WakeQuiet(t.sp, run, b);
  }

  lemma ExpirySays(t: Ledger, call: nat, b: Body)
    requires AtGate(t, call) && t.calls[call].run in t.sp.runs && b.ToolTold?
    ensures Count(ExpiredCall(t, call).sp, b) == Count(t.sp, b) + One(b == ToolTold(call, Withdrawn))
  {
    var c := t.calls[call];
    var dropped := Put(t, call, c.(state := Canceled, result := Some("denied")));
    NoteCount(dropped, c.run, b);
    var noted := Note(dropped, c.run);
    SayCount(noted, c.run, call, Withdrawn, b);
    WakeCount(Say(noted, c.run, call, Withdrawn), c.run, b);
  }

  function ClickSettled(t: Ledger, k: Click): Ledger
    requires AtGate(t, k.call)
  {
    var c := t.calls[k.call];
    if k.approve then Note(Say(Put(t, k.call, c.(state := Ready)), c.run, k.call, Readied), c.run)
    else Note(Say(Put(t, k.call, c.(state := Canceled, result := Some("denied"))), c.run, k.call, Withdrawn), c.run)
  }

  lemma ClickSays(t: Ledger, k: Click, b: Body)
    requires AtGate(t, k.call) && t.calls[k.call].run in t.sp.runs && b.ToolTold?
    ensures Count(DecidedCall(t, k).sp, b)
            == Count(t.sp, b) + One(b == ToolTold(k.call, if k.approve then Readied else Withdrawn))
  {
    var c := t.calls[k.call];
    var put := Put(t, k.call,
        if k.approve then c.(state := Ready) else c.(state := Canceled, result := Some("denied")));
    var mark := if k.approve then Readied else Withdrawn;
    SayCount(put, c.run, k.call, mark, b);
    NoteCount(Say(put, c.run, k.call, mark), c.run, b);
    var settled := ClickSettled(t, k);
    assert settled == Note(Say(put, c.run, k.call, mark), c.run);
    var recorded := settled.(approvals :=
      if k.call in t.approvals then t.approvals[k.call := t.approvals[k.call].(decidedBy := Some(k.who))]
      else t.approvals);
    WakeCount(recorded, c.run, b);
    assert DecidedCall(t, k) == Wake(recorded, c.run);
  }

  lemma RequestSays(t: Ledger, run: nat, call: nat, fence: nat, hash: string, expires: Option<nat>, b: Body)
    requires b.ToolTold?
    ensures Count(Requested(t, run, call, fence, hash, expires).sp, b)
            == Count(t.sp, b) + One(Live(t.sp, run) && call !in t.calls && b == ToolTold(call, Asked))
  {
    if Live(t.sp, run) && call !in t.calls {
      var parked := Put(t, call, Call(run, ApprovalPending, fence, hash, None))
        .(approvals := if call in t.approvals then t.approvals else t.approvals[call := Approval(expires, None)]);
      NoteCount(parked, run, b);
      SayCount(Note(parked, run), run, call, Asked, b);
    }
  }

  predicate KnownRuns(t: Ledger) {
    forall call :: call in t.calls ==> t.calls[call].run in t.sp.runs
  }

  lemma BeginSays(t: Ledger, run: nat, call: nat, fence: nat, hash: string, b: Body)
    requires b.ToolTold? && CanDo(t, Begin(run, call, fence, hash))
    ensures Count(Begun(t, run, call, fence, hash).sp, b)
            == Count(t.sp, b) + One(Says(t, Begin(run, call, fence, hash)) == Some(b))
  {
    if Live(t.sp, run) {
      if call !in t.calls {
        SayCount(Put(t, call, Call(run, InFlight, fence, hash, None)), run, call, Executing, b);
      } else if !Resolved(t.calls[call].state) {
        var c := t.calls[call];
        SayCount(Put(t, call, c.(fence := Max(c.fence, fence), state := if c.state.Ready? then InFlight else c.state)),
                 run, call, Executing, b);
      }
    }
  }

  lemma CommitSays(t: Ledger, run: nat, call: nat, fence: nat, hash: string, result: string, b: Body)
    requires b.ToolTold? && CanDo(t, Commit(run, call, fence, hash, result))
    ensures Count(CommittedResult(t, run, call, fence, hash, result).0.sp, b)
            == Count(t.sp, b) + One(Says(t, Commit(run, call, fence, hash, result)) == Some(b))
  {
    if Live(t.sp, run) {
      if call !in t.calls {
        SayCount(Put(t, call, Call(run, Completed, fence, hash, Some(result))), run, call, Finished, b);
      } else {
        SayCount(Put(t, call, t.calls[call].(state := Completed, result := Some(result))), run, call, Finished, b);
      }
    }
  }

  lemma DoubtSays(t: Ledger, run: nat, call: nat, b: Body)
    requires b.ToolTold? && CanDo(t, MarkUncertain(run, call))
    ensures Count(MarkedUncertain(t, run, call).sp, b)
            == Count(t.sp, b) + One(Says(t, MarkUncertain(run, call)) == Some(b))
  {
    if Live(t.sp, run) && call in t.calls && Flying(t.calls[call].state) {
      SayCount(Put(t, call, t.calls[call].(state := Uncertain)), run, call, Doubted, b);
    }
  }

  lemma ReconcileSays(t: Ledger, call: nat, to: CallState, found: Option<string>, b: Body)
    requires b.ToolTold? && KnownRuns(t) && Resolution(to)
    ensures Count(ReconciledCall(t, call, to, found).sp, b)
            == Count(t.sp, b) + One(Says(t, Reconcile(call, to, found)) == Some(b))
  {
    if call in t.calls && t.calls[call].state.Uncertain? {
      var c := t.calls[call];
      SayCount(Put(t, call, c.(state := to, result := if found.Some? then found else c.result)),
               c.run, call, Reconciled, b);
    }
  }

  lemma DecideSays(t: Ledger, k: Click, b: Body)
    requires b.ToolTold? && KnownRuns(t)
    ensures Count(Clicked(t, k).0.sp, b) == Count(t.sp, b) + One(Says(t, Decide(k)) == Some(b))
  {
    if ApproverAllowed(t.approvers, k.who) && AtGate(t, k.call) {
      if Late(t, k.call) {
        ExpirySays(t, k.call, b);
        assert Clicked(t, k).0 == ExpiredCall(t, k.call);
      } else if Binding(t, k) {
        ClickSays(t, k, b);
        assert Clicked(t, k).0 == DecidedCall(t, k);
      }
    }
  }

  lemma StepSays(t: Ledger, d: Deed, b: Body)
    requires b.ToolTold? && CanDo(t, d) && KnownRuns(t)
    ensures Count(Done(t, d).sp, b) == Count(t.sp, b) + One(Says(t, d) == Some(b))
  {
    match d
    case Request(run, call, fence, hash, expires) => RequestSays(t, run, call, fence, hash, expires, b);
    case Decide(k) => DecideSays(t, k, b);
    case Expire(call) => if AtGate(t, call) { ExpirySays(t, call, b); }
    case Begin(run, call, fence, hash) => BeginSays(t, run, call, fence, hash, b);
    case Commit(run, call, fence, hash, result) => CommitSays(t, run, call, fence, hash, result, b);
    case Elsewhere(a) => StepQuiet(t.sp, a, b);
    case MarkUncertain(run, call) => DoubtSays(t, run, call, b);
    case Reconcile(call, to, found) => ReconcileSays(t, call, to, found, b);
    case Pass(_) =>
  }

  // --- the invariant -------------------------------------------------------------------------

  /** How often the journal says each thing of a call. */
  datatype Marks = Marks(finished: nat, doubted: nat, reconciled: nat, readied: nat, withdrawn: nat)

  function MarksOf(sp: Spine, call: nat): Marks {
    Marks(Count(sp, ToolTold(call, Finished)), Count(sp, ToolTold(call, Doubted)),
          Count(sp, ToolTold(call, Reconciled)),
          Count(sp, ToolTold(call, Readied)), Count(sp, ToolTold(call, Withdrawn)))
  }

  /** What its row says should have been told. */
  function MarksDue(calls: map<nat, Call>, gated: bool, call: nat): Marks {
    if call !in calls then Marks(0, 0, 0, 0, 0)
    else
      var s := calls[call].state;
      Marks(One(s.Completed?), One(s.Uncertain? || Resolution(s)), One(Resolution(s)),
            One(gated && !s.ApprovalPending? && !s.Canceled?), One(s.Canceled?))
  }

  predicate GateRow(calls: map<nat, Call>, gated: bool, call: nat) {
    if call in calls then
      (calls[call].state.ApprovalPending? || calls[call].state.Ready? || calls[call].state.Canceled? ==> gated)
    else !gated
  }

  ghost predicate Inv(t: Ledger) {
    && KnownRuns(t)
    && (forall call: nat :: GateRow(t.calls, call in t.approvals, call))
    && (forall call: nat :: MarksOf(t.sp, call) == MarksDue(t.calls, call in t.approvals, call))
  }

  predicate GatedAfter(t: Ledger, d: Deed, call: nat) {
    call in t.approvals || (d.Request? && d.call == call && Live(t.sp, d.run) && call !in t.calls)
  }

  lemma StepApprovals(t: Ledger, d: Deed, call: nat)
    requires CanDo(t, d)
    ensures call in Done(t, d).approvals <==> GatedAfter(t, d, call)
    ensures call in t.approvals ==> Done(t, d).approvals[call].expires == t.approvals[call].expires
  {
  }

  lemma ClickKnown(t: Ledger, k: Click)
    ensures Clicked(t, k).0.sp.runs.Keys == t.sp.runs.Keys
  {
  }

  lemma StepKnown(t: Ledger, d: Deed, r: nat)
    requires CanDo(t, d) && r in t.sp.runs
    ensures r in Done(t, d).sp.runs
  {
    match d
    case Elsewhere(a) => CommandLife.StepRuns(t.sp, a, r);
    case Decide(k) => ClickKnown(t, k);
    case _ => assert Done(t, d).sp.runs.Keys == t.sp.runs.Keys;
  }

  lemma NewCallRun(t: Ledger, d: Deed, call: nat)
    requires CanDo(t, d) && KnownRuns(t) && call in CallsAfter(t, d)
    ensures CallsAfter(t, d)[call].run in t.sp.runs
  {
    if call in t.calls { RowsAfter(t, d, call); }
  }

  /** After the step the row still says exactly what has been told: the events so far and the step's own. */
  predicate Tallies(t: Ledger, d: Deed, call: nat)
    requires CanDo(t, d)
  {
    && GateRow(CallsAfter(t, d), GatedAfter(t, d, call), call)
    && var was := MarksDue(t.calls, call in t.approvals, call);
    && MarksDue(CallsAfter(t, d), GatedAfter(t, d, call), call)
       == Marks(was.finished + One(Says(t, d) == Some(ToolTold(call, Finished))),
                was.doubted + One(Says(t, d) == Some(ToolTold(call, Doubted))),
                was.reconciled + One(Says(t, d) == Some(ToolTold(call, Reconciled))),
                was.readied + One(Says(t, d) == Some(ToolTold(call, Readied))),
                was.withdrawn + One(Says(t, d) == Some(ToolTold(call, Withdrawn))))
  }

  lemma RequestTallies(t: Ledger, d: Deed, call: nat)
    requires GateRow(t.calls, call in t.approvals, call) && CanDo(t, d) && d.Request?
    ensures Tallies(t, d, call)
  {
  }

  lemma DecideTallies(t: Ledger, d: Deed, call: nat)
    requires GateRow(t.calls, call in t.approvals, call) && CanDo(t, d) && (d.Decide? || d.Expire?)
    ensures Tallies(t, d, call)
  {
  }

  lemma BeginTallies(t: Ledger, d: Deed, call: nat)
    requires GateRow(t.calls, call in t.approvals, call) && CanDo(t, d) && d.Begin?
    ensures Tallies(t, d, call)
  {
  }

  lemma CommitTallies(t: Ledger, d: Deed, call: nat)
    requires GateRow(t.calls, call in t.approvals, call) && CanDo(t, d) && d.Commit?
    ensures Tallies(t, d, call)
  {
  }

  lemma DoubtTallies(t: Ledger, d: Deed, call: nat)
    requires GateRow(t.calls, call in t.approvals, call) && CanDo(t, d) && (d.MarkUncertain? || d.Reconcile?)
    ensures Tallies(t, d, call)
  {
  }

  lemma MarksStep(t: Ledger, d: Deed, call: nat)
    requires Inv(t) && CanDo(t, d)
    ensures Tallies(t, d, call)
  {
    assert GateRow(t.calls, call in t.approvals, call);
    match d
    case Request(_, _, _, _, _) => RequestTallies(t, d, call);
    case Decide(_) => DecideTallies(t, d, call);
    case Expire(_) => DecideTallies(t, d, call);
    case Begin(_, _, _, _) => BeginTallies(t, d, call);
    case Commit(_, _, _, _, _) => CommitTallies(t, d, call);
    case MarkUncertain(_, _) => DoubtTallies(t, d, call);
    case Reconcile(_, _, _) => DoubtTallies(t, d, call);
    case _ =>
  }

  lemma StepMarks(t: Ledger, d: Deed, call: nat)
    requires Inv(t) && CanDo(t, d)
    ensures GateRow(CallsAfter(t, d), GatedAfter(t, d, call), call)
    ensures MarksOf(Done(t, d).sp, call) == MarksDue(CallsAfter(t, d), GatedAfter(t, d, call), call)
  {
    assert MarksOf(t.sp, call) == MarksDue(t.calls, call in t.approvals, call);
    MarksStep(t, d, call);
    StepSays(t, d, ToolTold(call, Finished));
    StepSays(t, d, ToolTold(call, Doubted));
    StepSays(t, d, ToolTold(call, Reconciled));
    StepSays(t, d, ToolTold(call, Readied));
    StepSays(t, d, ToolTold(call, Withdrawn));
  }

  lemma StepKnownRuns(t: Ledger, d: Deed)
    requires KnownRuns(t) && CanDo(t, d)
    ensures KnownRuns(Done(t, d))
  {
    StepCalls(t, d);
    forall call | call in CallsAfter(t, d) ensures CallsAfter(t, d)[call].run in Done(t, d).sp.runs {
      NewCallRun(t, d, call);
      StepKnown(t, d, CallsAfter(t, d)[call].run);
    }
  }

  lemma StepInv(t: Ledger, d: Deed)
    requires Inv(t) && CanDo(t, d)
    ensures Inv(Done(t, d))
  {
    StepKnownRuns(t, d);
    StepCalls(t, d);
    forall call: nat
      ensures GateRow(Done(t, d).calls, call in Done(t, d).approvals, call)
      ensures MarksOf(Done(t, d).sp, call) == MarksDue(Done(t, d).calls, call in Done(t, d).approvals, call) {
      StepApprovals(t, d, call);
      StepMarks(t, d, call);
    }
  }
}
