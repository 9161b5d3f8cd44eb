/** What a session's close leaves queued (packages/coordinator/commands.go:87-204, 282-323, 445-467). AcceptCommand
    reads the session's state without a lock, so an accept can fall on either side of the close. */
module Closings {
  import opened Base
  import opened RunTable
  import opened Spine
  import opened Commands
  import opened CommandLife
  import opened Effects

  predicate Shut(sessions: map<nat, SessionState>, session: nat) {
    session in sessions && (sessions[session] == Closing || sessions[session] == Closed)
  }

  /** Command i is queued in a session that is closing or closed. */
  predicate QueuedShut(sp: Spine, i: nat) {
    i < |sp.cmds| && sp.cmds[i].state == InQueue && Shut(sp.sessions, sp.cmds[i].session)
  }

  /** The two steps that queue a command in such a session: an accept that read it as active before the close,
      and the notice of a background task to a run that is still live. */
  predicate Late(sp: Spine, a: Action) {
    match a
    case Accept(session, id, kind, seen, _) =>
      Shut(sp.sessions, session) && !HasId(sp.cmds, id) && Answered(kind, seen, false, InQueue)
    case Notify(r, id, _) => r in sp.runs && Shut(sp.sessions, sp.runs[r].session)
    case _ => false
  }

  // --- one step ------------------------------------------------------------------------------

  /** Only accepting and opening move sessions. */
  lemma SessionsStay(sp: Spine, a: Action)
    requires Can(sp, a) && !a.Accept? && !a.NewSession?
    ensures Do(sp, a).sessions == sp.sessions
  {
    if a.Notify? { WakeRows(AddCommand(sp, a.id, sp.runs[a.r].session, Some(a.r), BackgroundNotice(a.task)), a.r); }
  }

  lemma AcceptStep(sp: Spine, a: Action)
    requires Can(sp, a) && a.Accept?
    ensures if a.session in sp.sessions && !HasId(sp.cmds, a.id)
            then Accepts(sp, Do(sp, a), a.session, a.id, a.kind, a.seen, a.child) else Do(sp, a) == sp
  {
    if a.session in sp.sessions && !HasId(sp.cmds, a.id) {
      AcceptRows(sp, a.session, a.id, a.kind, a.seen, a.child);
    }
  }

  /** The rows that were there: queued in a shut session after a step only if so before it. */
  lemma OldStay(sp: Spine, a: Action, i: nat)
    requires Can(sp, a) && i < |sp.cmds| && QueuedShut(Do(sp, a), i)
    ensures QueuedShut(sp, i)
  {
    if a.Accept? {
      AcceptStep(sp, a);
      if a.session in sp.sessions && !HasId(sp.cmds, a.id) {
        var out := Do(sp, a);
        assert out.cmds[..|sp.cmds|][i] == out.cmds[i];
      }
    } else {
      if !a.NewSession? { SessionsStay(sp, a); }
      if !a.Carry? {
        StepFollows(sp, a);
        assert Follows(sp.cmds[i], Do(sp, a).cmds[i]);
      }
    }
  }

  /** The rows a step adds. */
  lemma NewRows(sp: Spine, a: Action)
    requires Can(sp, a)
    ensures |sp.cmds| <= |Do(sp, a).cmds| <= |sp.cmds| + 1
    ensures QueuedShut(Do(sp, a), |sp.cmds|) <==> Late(sp, a)
  {
    if a.Accept? {
      AcceptStep(sp, a);
    } else if a.Notify? {
      var added := AddCommand(sp, a.id, sp.runs[a.r].session, Some(a.r), BackgroundNotice(a.task));
      WakeRows(added, a.r);
    } else {
      SameLength(sp, a);
    }
  }

  lemma SameLength(sp: Spine, a: Action)
    requires Can(sp, a) && !a.Accept? && !a.Notify?
    ensures |Do(sp, a).cmds| == |sp.cmds|
  {
    match a
    case WakeUp(r) => WakeRows(sp, r);
    case WakeForCapacity(r) => WakeRows(sp, r);
    case Drive(r, c, cause) => TransitRows(sp, r, c, cause);
    case Pause(r, i) => if Legal(sp, r, Wait) { TransitRows(sp, r, Wait, Some(ForPause)); }
    case ParkForCapacity(r) => TransitRows(sp, r, Wait, Some(ForCapacity));
    case _ =>
  }

  predicate NoneQueuedShut(sp: Spine) {
    forall i :: 0 <= i < |sp.cmds| ==> !QueuedShut(sp, i)
  }

  /** Nothing is queued in a closing or closed session after a step exactly when the step is not late. */
  lemma ShutExactly(sp: Spine, a: Action)
    requires Can(sp, a) && NoneQueuedShut(sp)
    ensures NoneQueuedShut(Do(sp, a)) <==> !Late(sp, a)
  {
    NewRows(sp, a);
    forall i | 0 <= i < |sp.cmds| ensures !QueuedShut(Do(sp, a), i) {
      if QueuedShut(Do(sp, a), i) { OldStay(sp, a, i); }
    }
  }

  // --- every run -----------------------------------------------------------------------------

  /** Every command ever queued in a closing or closed session was accepted late: none that was accepted before
      the close is left. */
  lemma {:induction false} QueuedShutWasLate(trace: seq<Spine>, actions: seq<Action>, k: nat, i: nat) returns (j: nat)
    requires CommandLife.Run(trace, actions) && k < |trace| && QueuedShut(trace[k], i)
    ensures j < k && |trace[j].cmds| == i && Late(trace[j], actions[j])
  {
    var sp, a := trace[k - 1], actions[k - 1];
    NewRows(sp, a);
    if i < |sp.cmds| {
      OldStay(sp, a, i);
      j := QueuedShutWasLate(trace, actions, k - 1, i);
    } else {
      j := k - 1;
    }
  }

  predicate ShutAs(sp: Spine, session: nat, to: SessionState) {
    Shut(sp.sessions, session) && sp.sessions[session] == to
  }

  lemma ShutStays(sp: Spine, a: Action, session: nat, to: SessionState)
    requires Can(sp, a) && ShutAs(sp, session, to)
    ensures ShutAs(Do(sp, a), session, to)
  {
    if a.Accept? {
      AcceptStep(sp, a);
    } else if !a.NewSession? {
      SessionsStay(sp, a);
    }
  }

  /** A session closed while a run was live stays closing for good: nothing finishes its close. */
  lemma {:induction false} ClosingForGood(
    trace: seq<Spine>, actions: seq<Action>, j: nat, k: nat, session: nat, to: SessionState)
    requires CommandLife.Run(trace, actions) && j <= k < |trace| && ShutAs(trace[j], session, to)
    ensures ShutAs(trace[k], session, to)
  {
    if j < k {
      ClosingForGood(trace, actions, j, k - 1, session, to);
      ShutStays(trace[k - 1], actions[k - 1], session, to);
    }
  }

  // --- what a session is in ------------------------------------------------------------------

  predicate ClosesIt(sp: Spine, a: Action, session: nat) {
    a.Accept? && a.session == session && a.kind.CloseSession? && !HasId(sp.cmds, a.id)
    && OpenSession(sp.sessions, session)
  }

  lemma SessionStep(sp: Spine, a: Action, session: nat)
    requires Can(sp, a)
    ensures session in sp.sessions ==>
      && session in Do(sp, a).sessions
      && Do(sp, a).sessions[session]
         == if !ClosesIt(sp, a, session) then sp.sessions[session] else if a.seen.run.None? then Closed else Closing
    ensures session !in sp.sessions && session in Do(sp, a).sessions ==> Do(sp, a).sessions[session] == Active
  {
    if a.Accept? {
      AcceptStep(sp, a);
    } else if !a.NewSession? {
      SessionsStay(sp, a);
    }
  }

  ghost predicate ClosedBefore(trace: seq<Spine>, actions: seq<Action>, k: nat, session: nat) {
    exists j :: 0 <= j < k && j < |trace| && j < |actions| && ClosesIt(trace[j], actions[j], session)
  }

  predicate OpenOrShut(sp: Spine, session: nat, closed: bool) {
    session in sp.sessions ==> if closed then Shut(sp.sessions, session) else sp.sessions[session] == Active
  }

  /** In every run: a session opened in it is active until a close is accepted for it, and closing or closed from
      then on. */
  lemma {:induction false} ShutWhenClosed(trace: seq<Spine>, actions: seq<Action>, k: nat, session: nat)
    requires CommandLife.Run(trace, actions) && k < |trace| && session !in trace[0].sessions
    ensures OpenOrShut(trace[k], session, ClosedBefore(trace, actions, k, session))
    ensures session !in trace[k].sessions ==> !ClosedBefore(trace, actions, k, session)
  {
    if k > 0 {
      ShutWhenClosed(trace, actions, k - 1, session);
      SessionStep(trace[k - 1], actions[k - 1], session);
      ClosedNext(trace, actions, k, session);
    }
  }

  lemma ClosedNext(trace: seq<Spine>, actions: seq<Action>, k: nat, session: nat)
    requires 0 < k < |trace| == |actions| + 1
    ensures ClosedBefore(trace, actions, k, session)
            <==> ClosedBefore(trace, actions, k - 1, session) || ClosesIt(trace[k - 1], actions[k - 1], session)
  {
  }

  /** Late accepts happen: a change of configuration read against an open session that is closed before it. */
  lemma CloseRaces(sp: Spine, session: nat, id: nat, close: nat, seen: Seen, child: nat)
    requires OpenSession(sp.sessions, session) && !HasId(sp.cmds, id) && !HasId(sp.cmds, close) && id != close
    requires child !in sp.sessions && (seen.run.Some? ==> seen.run.value in sp.runs)
    requires seen.active && seen.configAllowed
    ensures var shut := Do(sp, Accept(session, close, CloseSession, seen, child));
      && Can(shut, Accept(session, id, ChangeConfig, seen, child))
      && Late(shut, Accept(session, id, ChangeConfig, seen, child))
  {
    AcceptRows(sp, session, close, CloseSession, seen, child);
    var shut := Do(sp, Accept(session, close, CloseSession, seen, child));
    var n := |sp.cmds|;
    forall k | 0 <= k < |shut.cmds| ensures shut.cmds[k].id != id {
      if k < n { assert shut.cmds[..n][k].id == sp.cmds[k].id; }
    }
  }
}
