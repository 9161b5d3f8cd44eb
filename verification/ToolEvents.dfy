/** What each tool transaction writes to its session's journal, event by event and in order
    (packages/coordinator/approvals.go, orchestration.go:584-865). */
module ToolEvents {
  import opened Base
  import RunTable
  import opened Journal
  import opened Spine
  import opened Commands
  import opened Tools
  import opened ToolLedger
  import opened Effects

  /** A run that was waiting is resumed, and that is journaled. */
  function WakeBodies(runs: map<nat, Run>, r: nat): seq<Body> {
    if r in runs && runs[r].state.Waiting? then [RunMoved(r, RunTable.Running)] else []
  }

  predicate LiveRun(runs: map<nat, Run>, r: nat) {
    r in runs && !RunTable.Terminal(runs[r].state)
  }

  predicate InFlightRow(calls: map<nat, Call>, call: nat) {
    call in calls && calls[call].state in {InFlight, Leased}
  }

  function IfThen(b: bool, bodies: seq<Body>): seq<Body> {
    if b then bodies else []
  }

  /** The run whose session hears of the deed. */
  function About(t: Ledger, d: Deed): Option<nat> {
    match d
    case Request(run, _, _, _, _) => Some(run)
    case Decide(k) => if k.call in t.calls then Some(t.calls[k.call].run) else None
    case Expire(call) => if call in t.calls then Some(t.calls[call].run) else None
    case Begin(run, _, _, _) => Some(run)
    case Commit(run, _, _, _, _) => Some(run)
    case MarkUncertain(run, _) => Some(run)
    case Reconcile(call, _, _) => if call in t.calls then Some(t.calls[call].run) else None
    case _ => None
  }

  /** A call that leaves the gate unanswered: the note, the withdrawal, and the run goes on. */
  function WithdrawnBodies(t: Ledger, call: nat): seq<Body>
    requires call in t.calls
  {
    [Noted, ToolTold(call, Withdrawn)] + WakeBodies(t.sp.runs, t.calls[call].run)
  }

  function ClickBodies(t: Ledger, k: Click): seq<Body> {
    if !AtGate(t, k.call) || (t.approvers != [] && (k.who == "" || k.who !in t.approvers)) then []
    else if Late(t, k.call) then WithdrawnBodies(t, k.call)
    else if k.hash != "" && k.hash != t.calls[k.call].hash then []
    else [ToolTold(k.call, if k.approve then Readied else Withdrawn), Noted]
         + WakeBodies(t.sp.runs, t.calls[k.call].run)
  }

  function Bodies(t: Ledger, d: Deed): seq<Body> {
    match d
    case Request(run, call, _, _, _) =>
      IfThen(LiveRun(t.sp.runs, run) && call !in t.calls, [Noted, ToolTold(call, Asked)])
    case Decide(k) => ClickBodies(t, k)
    case Expire(call) => if AtGate(t, call) then WithdrawnBodies(t, call) else []
    case Begin(run, call, _, _) =>
      IfThen(LiveRun(t.sp.runs, run)
             && (call in t.calls ==> t.calls[call].state !in {Completed, ReconciledCompleted, ReconciledNotApplied}),
             [ToolTold(call, Executing)])
    case Commit(run, call, fence, _, _) =>
      IfThen(LiveRun(t.sp.runs, run)
             && (call in t.calls ==> InFlightRow(t.calls, call) && t.calls[call].fence <= fence),
             [ToolTold(call, Finished)])
    case MarkUncertain(run, call) =>
      IfThen(LiveRun(t.sp.runs, run) && InFlightRow(t.calls, call), [ToolTold(call, Doubted)])
    case Reconcile(call, _, _) =>
      IfThen(call in t.calls && t.calls[call].state == Uncertain, [ToolTold(call, Reconciled)])
    case _ => []
  }

  // --- journaling ----------------------------------------------------------------------------

  lemma {:induction false} AppendTwice(log: Log<Body>, s: nat, x: seq<Body>, y: seq<Body>)
    ensures AppendAll(AppendAll(log, s, x), s, y) == AppendAll(log, s, x + y)
  {
    if y == [] {
      assert x + y == x;
    } else {
      var n := |y| - 1;
      AppendTwice(log, s, x, y[..n]);
      assert (x + y)[..|x + y| - 1] == x + y[..n];
    }
  }

  lemma AppendOne(log: Log<Body>, s: nat, b: Body)
    ensures Append(log, s, b) == AppendAll(log, s, [b])
  {
    assert [b][..0] == [];
  }

  /** The journal of run r's session has grown by the bodies, and the runs are as they were. */
  predicate Grew(was: Spine, now: Spine, r: nat, bodies: seq<Body>)
    requires r in was.runs
  {
    now.runs == was.runs && now.log == AppendAll(was.log, was.runs[r].session, bodies)
  }

  lemma GrewOn(a: Spine, b: Spine, c: Spine, r: nat, x: seq<Body>, y: seq<Body>)
    requires r in a.runs && Grew(a, b, r, x) && Grew(b, c, r, y)
    ensures Grew(a, c, r, x + y)
  {
    AppendTwice(a.log, a.runs[r].session, x, y);
  }

  lemma SayGrows(t: Ledger, run: nat, call: nat, mark: ToolMark)
    requires run in t.sp.runs
    ensures Grew(t.sp, Say(t, run, call, mark).sp, run, [ToolTold(call, mark)])
  {
    AppendOne(t.sp.log, t.sp.runs[run].session, ToolTold(call, mark));
  }

  lemma NoteGrows(t: Ledger, run: nat)
    requires run in t.sp.runs
    ensures Grew(t.sp, Note(t, run).sp, run, [Noted])
  {
    AppendOne(t.sp.log, t.sp.runs[run].session, Noted);
  }

  lemma WakeLog(sp: Spine, r: nat)
    requires r in sp.runs
    ensures WakeParked(sp, r).log == AppendAll(sp.log, sp.runs[r].session, WakeBodies(sp.runs, r))
  {
    AppendOne(sp.log, sp.runs[r].session, RunMoved(r, RunTable.Running));
  }

  lemma WakeTells(was: Spine, now: Spine, r: nat, bodies: seq<Body>)
    requires r in was.runs && Grew(was, now, r, bodies)
    ensures WakeParked(now, r).log == AppendAll(was.log, was.runs[r].session, bodies + WakeBodies(was.runs, r))
  {
    WakeLog(now, r);
    AppendTwice(was.log, was.runs[r].session, bodies, WakeBodies(was.runs, r));
  }

  // --- deeds ---------------------------------------------------------------------------------

  lemma RequestTells(t: Ledger, run: nat, call: nat, fence: nat, hash: string, expires: Option<nat>)
    requires run in t.sp.runs
    ensures Grew(t.sp, Requested(t, run, call, fence, hash, expires).sp, run,
                 Bodies(t, Request(run, call, fence, hash, expires)))
  {
    if LiveRun(t.sp.runs, run) && call !in t.calls {
      var parked := Put(t, call, Call(run, ApprovalPending, fence, hash, None))
        .(approvals := if call in t.approvals then t.approvals else t.approvals[call := Approval(expires, None)]);
      var noted := Note(parked, run);
      NoteGrows(parked, run);
      SayGrows(noted, run, call, Asked);
      GrewOn(t.sp, noted.sp, Say(noted, run, call, Asked).sp, run, [Noted], [ToolTold(call, Asked)]);
      assert [Noted] + [ToolTold(call, Asked)] == [Noted, ToolTold(call, Asked)];
    }
  }

  lemma WithdrawTells(t: Ledger, call: nat)
    requires AtGate(t, call) && t.calls[call].run in t.sp.runs
    ensures var r := t.calls[call].run;
      ExpiredCall(t, call).sp.log == AppendAll(t.sp.log, t.sp.runs[r].session, WithdrawnBodies(t, call))
  {
    var c := t.calls[call];
    var put := Put(t, call, c.(state := Canceled, result := Some("denied")));
    var noted := Note(put, c.run);
    NoteGrows(put, c.run);
    var said := Say(noted, c.run, call, Withdrawn);
    SayGrows(noted, c.run, call, Withdrawn);
    GrewOn(t.sp, noted.sp, said.sp, c.run, [Noted], [ToolTold(call, Withdrawn)]);
    assert [Noted] + [ToolTold(call, Withdrawn)] == [Noted, ToolTold(call, Withdrawn)];
    WakeTells(t.sp, said.sp, c.run, [Noted, ToolTold(call, Withdrawn)]);
  }

  lemma DecisionTells(t: Ledger, k: Click)
    requires AtGate(t, k.call) && t.calls[k.call].run in t.sp.runs
    ensures var r := t.calls[k.call].run;
      DecidedCall(t, k).sp.log
      == AppendAll(t.sp.log, t.sp.runs[r].session,
                   [ToolTold(k.call, if k.approve then Readied else Withdrawn), Noted] + WakeBodies(t.sp.runs, r))
  {
    var c := t.calls[k.call];
    var mark := if k.approve then Readied else Withdrawn;
    var put := Put(t, k.call, if k.approve then c.(state := Ready)
                              else c.(state := Canceled, result := Some("denied")));
    var said := Say(put, c.run, k.call, mark);
    SayGrows(put, c.run, k.call, mark);
    var noted := Note(said, c.run);
    NoteGrows(said, c.run);
    GrewOn(t.sp, said.sp, noted.sp, c.run, [ToolTold(k.call, mark)], [Noted]);
    assert [ToolTold(k.call, mark)] + [Noted] == [ToolTold(k.call, mark), Noted];
    WakeTells(t.sp, noted.sp, c.run, [ToolTold(k.call, mark), Noted]);
  }

  lemma LedgerTells(t: Ledger, d: Deed)
    requires CanDo(t, d) && About(t, d).Some? && About(t, d).value in t.sp.runs
    requires d.Begin? || d.Commit? || d.MarkUncertain? || d.Reconcile?
    ensures Grew(t.sp, Done(t, d).sp, About(t, d).value, Bodies(t, d))
  {
    var r := About(t, d).value;
    match d
    case Begin(_, call, _, _) => AppendOne(t.sp.log, t.sp.runs[r].session, ToolTold(call, Executing));
    case Commit(_, call, _, _, _) => AppendOne(t.sp.log, t.sp.runs[r].session, ToolTold(call, Finished));
    case MarkUncertain(_, call) => AppendOne(t.sp.log, t.sp.runs[r].session, ToolTold(call, Doubted));
    case Reconcile(call, _, _) => AppendOne(t.sp.log, t.sp.runs[r].session, ToolTold(call, Reconciled));
  }

  predicate Wrote(was: Log<Body>, now: Log<Body>, home: nat, bodies: seq<Body>) {
    now == AppendAll(was, home, bodies)
  }

  lemma ClickTells(t: Ledger, k: Click)
    requires k.call in t.calls && t.calls[k.call].run in t.sp.runs
    ensures Wrote(t.sp.log, Clicked(t, k).0.sp.log, t.sp.runs[t.calls[k.call].run].session, ClickBodies(t, k))
  {
    if AtGate(t, k.call) {
      if Late(t, k.call) { WithdrawTells(t, k.call); } else { DecisionTells(t, k); }
    }
  }

  lemma DeedWrites(t: Ledger, d: Deed)
    requires CanDo(t, d) && About(t, d).Some? && About(t, d).value in t.sp.runs
    ensures Wrote(t.sp.log, Done(t, d).sp.log, t.sp.runs[About(t, d).value].session, Bodies(t, d))
  {
    match d
    case Request(run, call, fence, hash, expires) => RequestTells(t, run, call, fence, hash, expires);
    case Decide(k) => ClickTells(t, k);
    case Expire(call) => if AtGate(t, call) { WithdrawTells(t, call); }
    case _ => LedgerTells(t, d);
  }

  /** Every deed on a tool call journals exactly these events, in this order, in its run's session; numbered on
      from the session's last. */
  lemma DeedTells(t: Ledger, d: Deed)
    requires CanDo(t, d) && About(t, d).Some? && About(t, d).value in t.sp.runs
    ensures Added(t.sp.log, Done(t, d).sp.log, t.sp.runs[About(t, d).value].session, Bodies(t, d))
  {
    DeedWrites(t, d);
    AppendAllAdds(t.sp.log, t.sp.runs[About(t, d).value].session, Bodies(t, d));
  }
}
