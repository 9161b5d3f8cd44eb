/** What each transaction does to the rows, said by the rows' own columns (packages/coordinator/commands.go:87-204,
    297-323, 388-422, 555-578, 678-869, store.go:462-545, storage/queries/commands.sql). */
module Effects {
  import opened Base
  import opened RunTable
  import opened Journal
  import opened Spine
  import opened Commands

  // --- sweeps --------------------------------------------------------------------------------

  function Expiring(c: Cmd, gone: bool): Cmd {
    if gone then c.(state := Expired) else c
  }

  /** Sweeping a run that ended as `to`: what is queued on it expires, save a change of configuration, and a
      message where the run completed. Every other row is as it was. */
  predicate RunSwept(was: seq<Cmd>, now: seq<Cmd>, r: nat, to: RunState) {
    |now| == |was|
    && forall k :: 0 <= k < |was| ==>
         now[k] == Expiring(was[k], was[k].state.InQueue? && was[k].run == Some(r) && !was[k].kind.ChangeConfig?
                                    && !(was[k].kind.SendMessage? && to.Completed?))
  }

  lemma SweepRows(sp: Spine, r: nat, to: RunState, session: nat)
    ensures RunSwept(sp.cmds, SweepRun(sp, r, to, session).cmds, r, to)
  {
  }

  /** Closing a session: what else is queued in it expires. */
  predicate SessionSwept(was: seq<Cmd>, now: seq<Cmd>, session: nat, i: nat, open: bool) {
    |now| == |was|
    && forall k :: 0 <= k < |was| ==>
         now[k] == Expiring(was[k], open && k != i && was[k].state.InQueue? && was[k].session == session)
  }

  predicate OpenSession(sessions: map<nat, SessionState>, session: nat) {
    session in sessions && (sessions[session] == Active || sessions[session] == Paused)
  }

  predicate Closes(was: Spine, now: Spine, session: nat, i: nat, run: Option<nat>) {
    && SessionSwept(was.cmds, now.cmds, session, i, OpenSession(was.sessions, session))
    && now.sessions == (if OpenSession(was.sessions, session)
                        then was.sessions[session := if run.None? then Closed else Closing] else was.sessions)
    && now.runs == was.runs && now.jobs == was.jobs && now.marked == was.marked
  }

  lemma CloseRows(sp: Spine, session: nat, i: nat, run: Option<nat>)
    ensures Closes(sp, CloseSweep(sp, session, i, run), session, i, run)
  {
  }

  // --- events --------------------------------------------------------------------------------

  /** The events added, in order, all in one session and numbered on. */
  predicate Added(was: Log<Body>, now: Log<Body>, session: nat, bodies: seq<Body>) {
    |now.events| == |was.events| + |bodies| && was.events <= now.events
    && forall k :: 0 <= k < |bodies| ==>
         now.events[|was.events| + k] == Event(session, Last(was, session) + k + 1, bodies[k])
  }

  lemma {:induction false} AppendAllAdds(log: Log<Body>, session: nat, bodies: seq<Body>)
    ensures Added(log, AppendAll(log, session, bodies), session, bodies)
    ensures Last(AppendAll(log, session, bodies), session) == Last(log, session) + |bodies|
  {
    if bodies != [] { AppendAllAdds(log, session, bodies[..|bodies| - 1]); }
  }

  /** The first event added. */
  predicate Opens(was: Log<Body>, now: Log<Body>, session: nat, body: Body) {
    was.events < now.events && now.events[|was.events|] == Event(session, Last(was, session) + 1, body)
  }

  lemma OpensStill(a: Log<Body>, b: Log<Body>, c: Log<Body>, session: nat, body: Body)
    requires Opens(a, b, session, body) && b.events <= c.events
    ensures Opens(a, c, session, body)
  {
    assert c.events[|a.events|] == b.events[|a.events|];
  }

  /** Nothing but events of this session was added. */
  predicate OnlyIn(was: Log<Body>, now: Log<Body>, session: nat) {
    was.events <= now.events
    && forall k :: |was.events| <= k < |now.events| ==> now.events[k].session == session
  }

  lemma AddedIn(was: Log<Body>, now: Log<Body>, session: nat, bodies: seq<Body>)
    requires Added(was, now, session, bodies)
    ensures OnlyIn(was, now, session)
  {
    var n := |was.events|;
    forall k | n <= k < |now.events| ensures now.events[k].session == session {
      var j := k - n;
      assert now.events[n + j] == Event(session, Last(was, session) + j + 1, bodies[j]);
    }
  }

  lemma OnlyInChain(a: Log<Body>, b: Log<Body>, c: Log<Body>, session: nat)
    requires OnlyIn(a, b, session) && OnlyIn(b, c, session)
    ensures OnlyIn(a, c, session)
  {
    forall k | |a.events| <= k < |c.events| ensures c.events[k].session == session {
      if k < |b.events| { assert c.events[k] == b.events[k]; }
    }
  }

  function Flagged(gone: seq<bool>): set<nat> {
    set k | 0 <= k < |gone| && gone[k]
  }

  lemma {:induction false} ExpiryCount(gone: seq<bool>)
    ensures |ExpiryEvents(gone)| == |Flagged(gone)|
  {
    if gone == [] {
      assert Flagged(gone) == {};
    } else {
      var n := |gone| - 1;
      ExpiryCount(gone[..n]);
      if gone[n] {
        assert Flagged(gone) == Flagged(gone[..n]) + {n};
      } else {
        assert Flagged(gone) == Flagged(gone[..n]);
      }
    }
  }

  function QueuedMessages(cmds: seq<Cmd>, r: nat): set<nat> {
    set k | 0 <= k < |cmds| && cmds[k].state.InQueue? && cmds[k].run == Some(r) && cmds[k].kind.SendMessage?
  }

  lemma {:induction false} SurvivingCount(cmds: seq<Cmd>, r: nat)
    ensures Surviving(cmds, r) == |QueuedMessages(cmds, r)|
  {
    if cmds == [] {
      assert QueuedMessages(cmds, r) == {};
    } else {
      var n := |cmds| - 1;
      SurvivingCount(cmds[..n], r);
      if cmds[n].state.InQueue? && cmds[n].run == Some(r) && cmds[n].kind.SendMessage? {
        assert QueuedMessages(cmds, r) == QueuedMessages(cmds[..n], r) + {n};
      } else {
        assert QueuedMessages(cmds, r) == QueuedMessages(cmds[..n], r);
      }
    }
  }

  function RowsChanged(was: seq<Cmd>, now: seq<Cmd>): set<nat>
    requires |was| == |now|
  {
    set k | 0 <= k < |was| && now[k] != was[k]
  }

  /** A sweep's events: one for each row it expired and, where the run completed, one for each message left; all
      in the one session. */
  predicate SweepTold(was: Spine, now: Spine, r: nat, to: RunState, session: nat)
    requires |was.cmds| == |now.cmds|
  {
    && |now.log.events| == |was.log.events| + |RowsChanged(was.cmds, now.cmds)|
                           + (if to.Completed? then |QueuedMessages(now.cmds, r)| else 0)
    && OnlyIn(was.log, now.log, session)
  }

  lemma ExpireTells(sp: Spine, session: nat, gone: seq<bool>)
    requires |gone| == |sp.cmds| && forall k :: 0 <= k < |gone| && gone[k] ==> sp.cmds[k].state.InQueue?
    ensures var out := ExpireAll(sp, session, gone);
      |out.log.events| == |sp.log.events| + |RowsChanged(sp.cmds, out.cmds)| && OnlyIn(sp.log, out.log, session)
  {
    var out := ExpireAll(sp, session, gone);
    AppendAllAdds(sp.log, session, ExpiryEvents(gone));
    AddedIn(sp.log, out.log, session, ExpiryEvents(gone));
    ExpiryCount(gone);
    assert Flagged(gone) == RowsChanged(sp.cmds, out.cmds);
  }

  lemma SweepTells(sp: Spine, r: nat, to: RunState, session: nat)
    ensures SweepTold(sp, SweepRun(sp, r, to, session), r, to, session)
  {
    var gone := GoneWithRun(sp.cmds, r, to);
    var swept := ExpireAll(sp, session, gone);
    ExpireTells(sp, session, gone);
    if to.Completed? {
      var warned := Warnings(Surviving(swept.cmds, r));
      var out := swept.(log := AppendAll(swept.log, session, warned));
      SurvivingCount(swept.cmds, r);
      AppendAllAdds(swept.log, session, warned);
      AddedIn(swept.log, out.log, session, warned);
      OnlyInChain(sp.log, swept.log, out.log, session);
      assert SweepRun(sp, r, to, session) == out;
    }
  }

  /** A close journals its move, an expiry for each row, and the end of the session where no run is live: the
      move first and the end last. */
  predicate CloseTold(was: Spine, now: Spine, session: nat, run: Option<nat>)
    requires |was.cmds| == |now.cmds|
  {
    && OnlyIn(was.log, now.log, session)
    && |now.log.events| == |was.log.events| + |RowsChanged(was.cmds, now.cmds)|
                           + (if !OpenSession(was.sessions, session) then 0 else if run.None? then 2 else 1)
    && (OpenSession(was.sessions, session) ==>
          && Opens(was.log, now.log, session, SessionMoved(Closing))
          && (run.None? ==> now.log.events[|now.log.events| - 1].body == SessionMoved(Closed)))
  }

  lemma CloseTells(sp: Spine, session: nat, i: nat, run: Option<nat>)
    ensures CloseTold(sp, CloseSweep(sp, session, i, run), session, run)
  {
    if OpenSession(sp.sessions, session) {
      var closing := MovedSession(sp, session, Closing);
      var gone := GoneWithSession(closing.cmds, session, i);
      var swept := ExpireAll(closing, session, gone);
      ExpireTells(closing, session, gone);
      OnlyInChain(sp.log, closing.log, swept.log, session);
      OpensStill(sp.log, closing.log, swept.log, session, SessionMoved(Closing));
      var closed := MovedSession(swept, session, Closed);
      OpensStill(sp.log, swept.log, closed.log, session, SessionMoved(Closing));
      OnlyInChain(sp.log, swept.log, closed.log, session);
      assert CloseSweep(sp, session, i, run) == if run.None? then closed else swept;
    } else {
      assert RowsChanged(sp.cmds, sp.cmds) == {};
    }
  }

  // --- runs ----------------------------------------------------------------------------------

  /** The run moves as the table says, and its queue is swept exactly when that ends it. */
  predicate Transits(was: Spine, now: Spine, r: nat, c: RunCommand, cause: Option<Cause>)
    requires r in was.runs && Next(was.runs[r].state, c).Some?
  {
    var to := Next(was.runs[r].state, c).value;
    && now.runs == was.runs[r := Run(was.runs[r].session, to, if to.Waiting? then cause else None)]
    && (if Terminal(to) then RunSwept(was.cmds, now.cmds, r, to) else now.cmds == was.cmds)
    && now.sessions == was.sessions && now.jobs == was.jobs && now.marked == was.marked
  }

  lemma TransitRows(sp: Spine, r: nat, c: RunCommand, cause: Option<Cause>)
    requires Legal(sp, r, c)
    ensures Transits(sp, Transit(sp, r, c, cause), r, c, cause)
  {
  }

  /** A transition's events: its own, and after it what sweeping an ended run tells; all in the run's session. */
  predicate TransitTold(was: Spine, now: Spine, r: nat, to: RunState)
    requires r in was.runs && |was.cmds| == |now.cmds|
  {
    && Opens(was.log, now.log, was.runs[r].session, RunMoved(r, to))
    && OnlyIn(was.log, now.log, was.runs[r].session)
    && |now.log.events| == |was.log.events| + 1
         + (if Terminal(to) then |RowsChanged(was.cmds, now.cmds)| else 0)
         + (if to.Completed? then |QueuedMessages(now.cmds, r)| else 0)
  }

  lemma TransitTells(sp: Spine, r: nat, c: RunCommand, cause: Option<Cause>)
    requires Legal(sp, r, c) && |Transit(sp, r, c, cause).cmds| == |sp.cmds|
    ensures TransitTold(sp, Transit(sp, r, c, cause), r, Next(sp.runs[r].state, c).value)
  {
    var to, session := Next(sp.runs[r].state, c).value, sp.runs[r].session;
    var moved := Moved(sp, r, to, cause);
    if Terminal(to) {
      var out := SweepRun(moved, r, to, session);
      SweepTells(moved, r, to, session);
      OnlyInChain(sp.log, moved.log, out.log, session);
      OpensStill(sp.log, moved.log, out.log, session, RunMoved(r, to));
    }
  }

  predicate Waits(runs: map<nat, Run>, run: Option<nat>) {
    run.Some? && run.value in runs && runs[run.value].state == Waiting
  }

  /** A waiting run runs again and is enqueued, once; any other is left alone. */
  predicate Wakes(was: Spine, now: Spine, run: Option<nat>) {
    if Waits(was.runs, run) then
      now.runs == was.runs[run.value := Run(was.runs[run.value].session, Running, None)]
      && now.jobs == was.jobs + [run.value]
    else now.runs == was.runs && now.jobs == was.jobs
  }

  lemma WakeRows(sp: Spine, r: nat)
    ensures Wakes(sp, WakeParked(sp, r), Some(r)) && WakeParked(sp, r).cmds == sp.cmds
    ensures WakeParked(sp, r).sessions == sp.sessions && WakeParked(sp, r).marked == sp.marked
  {
  }

  // --- carrying ------------------------------------------------------------------------------

  /** This session's queued messages of runs that have ended move to r, and nothing else changes. */
  predicate RowsCarried(runs: map<nat, Run>, was: seq<Cmd>, now: seq<Cmd>, session: nat, r: nat) {
    |now| == |was|
    && forall k :: 0 <= k < |was| ==>
         var c := was[k];
         now[k] == if c.state == InQueue && c.kind.SendMessage? && c.session == session && c.run.Some?
                      && c.run.value != r && c.run.value in runs && Terminal(runs[c.run.value].state)
                   then c.(run := Some(r)) else c
  }

  lemma CarryRows(sp: Spine, session: nat, r: nat)
    ensures RowsCarried(sp.runs, sp.cmds, Carried(sp, session, r).cmds, session, r)
  {
  }

  lemma {:induction false} CarryCounts(runs: map<nat, Run>, cmds: seq<Cmd>, session: nat, r: nat)
    ensures CarryCount(runs, cmds, session, r) == 0
            <==> forall k :: 0 <= k < |cmds| ==> !Carries(runs, cmds[k], session, r)
  {
    if cmds != [] {
      var n := |cmds| - 1;
      CarryCounts(runs, cmds[..n], session, r);
      assert cmds == cmds[..n] + [cmds[n]];
    }
  }

  lemma CarryNothing(sp: Spine, session: nat, r: nat)
    ensures CarryCount(sp.runs, sp.cmds, session, r) == 0 <==> Carried(sp, session, r).cmds == sp.cmds
  {
    CarryCounts(sp.runs, sp.cmds, session, r);
    var out := Carried(sp, session, r).cmds;
    forall k | 0 <= k < |sp.cmds| ensures out[k] == sp.cmds[k] <==> !Carries(sp.runs, sp.cmds[k], session, r) { }
  }

  // --- accepting -----------------------------------------------------------------------------

  /** Where a new command of each kind ends up. */
  predicate Answered(kind: Kind, seen: Seen, waiting: bool, s: CommandState) {
    match kind
    case CloseSession => s == Applied
    case ForkSession => s == if seen.active then Applied else Rejected
    case ClearHistory => s == if seen.active then Applied else Rejected
    case ResumeRun => s == if seen.active && waiting then Applied else Rejected
    case SendMessage => s == if seen.active && seen.run.Some? then InQueue else Rejected
    case PauseRun => s == if seen.active && seen.run.Some? then InQueue else Rejected
    case Approve => s == if seen.active && seen.approvalPending then InQueue else Rejected
    case Deny => s == if seen.active && seen.approvalPending then InQueue else Rejected
    case ChangeConfig => s == if seen.active && seen.configAllowed then InQueue else Rejected
    case BackgroundNotice(_) => s == Rejected
    case OtherKind => s == Rejected
  }

  /** What accepting a new id does: one row, as asked for and answered; the other rows only where it closes the
      session; a run only where it resumes one; another session only where it forks. */
  predicate Accepts(was: Spine, now: Spine, session: nat, id: nat, kind: Kind, seen: Seen, child: nat) {
    var n := |was.cmds|;
    && |now.cmds| == n + 1
    && (var c := now.cmds[n];
        c.id == id && c.session == session && c.run == seen.run && c.kind == kind
        && Answered(kind, seen, Waits(was.runs, seen.run), c.state))
    && SessionSwept(was.cmds, now.cmds[..n], session, n, kind.CloseSession? && OpenSession(was.sessions, session))
    && now.sessions == (if kind.CloseSession? && OpenSession(was.sessions, session)
                        then was.sessions[session := if seen.run.None? then Closed else Closing]
                        else if kind.ForkSession? && seen.active then was.sessions[child := Active]
                        else was.sessions)
    && Wakes(was, now, if kind.ResumeRun? && seen.active then seen.run else None)
    && now.marked == was.marked
  }

  /** The row's own end, everything else as it was. */
  predicate EndsOnly(was: Spine, now: Spine, i: nat, s: CommandState) {
    i < |was.cmds| == |now.cmds| && now.cmds == was.cmds[i := was.cmds[i].(state := s, applied := now.cmds[i].applied)]
    && now.sessions == was.sessions && now.runs == was.runs && now.jobs == was.jobs && now.marked == was.marked
  }

  lemma EndRows(sp: Spine, i: nat, session: nat)
    requires i < |sp.cmds|
    ensures EndsOnly(sp, ApplyQueued(sp, i, session), i, Applied)
    ensures EndsOnly(sp, RejectQueued(sp, i, session), i, Rejected)
  {
  }

  lemma AddRow(sp: Spine, id: nat, session: nat, run: Option<nat>, kind: Kind)
    ensures var out := AddCommand(sp, id, session, run, kind);
      && out.cmds == sp.cmds + [Cmd(id, session, run, kind, InQueue, None)]
      && out.sessions == sp.sessions && out.runs == sp.runs && out.jobs == sp.jobs && out.marked == sp.marked
  {
  }

  lemma CloseAccepts(sp: Spine, session: nat, id: nat, seen: Seen, child: nat)
    requires session in sp.sessions && !HasId(sp.cmds, id)
    ensures Accepts(sp, Accepted(sp, session, id, CloseSession, seen, child), session, id, CloseSession, seen, child)
  {
    var n := |sp.cmds|;
    var added := AddCommand(sp, id, session, seen.run, CloseSession);
    AddRow(sp, id, session, seen.run, CloseSession);
    var swept := CloseSweep(added, session, n, seen.run);
    CloseRows(added, session, n, seen.run);
    EndRows(swept, n, session);
    assert Accepted(sp, session, id, CloseSession, seen, child) == ApplyQueued(swept, n, session);
  }

  lemma ResumeAccepts(sp: Spine, session: nat, id: nat, seen: Seen, child: nat)
    requires session in sp.sessions && !HasId(sp.cmds, id)
    ensures Accepts(sp, Accepted(sp, session, id, ResumeRun, seen, child), session, id, ResumeRun, seen, child)
  {
    var n := |sp.cmds|;
    var added := AddCommand(sp, id, session, seen.run, ResumeRun);
    var out := Accepted(sp, session, id, ResumeRun, seen, child);
    AddRow(sp, id, session, seen.run, ResumeRun);
    if seen.active && Waits(sp.runs, seen.run) {
      var r := seen.run.value;
      WakeRows(added, r);
      EndRows(WakeParked(added, r), n, added.runs[r].session);
      assert out == ApplyQueued(WakeParked(added, r), n, added.runs[r].session);
    } else {
      EndRows(added, n, session);
      assert out == RejectQueued(added, n, session);
    }
  }

  lemma OtherAccepts(sp: Spine, session: nat, id: nat, kind: Kind, seen: Seen, child: nat)
    requires session in sp.sessions && !HasId(sp.cmds, id) && !kind.CloseSession? && !kind.ResumeRun?
    ensures Accepts(sp, Accepted(sp, session, id, kind, seen, child), session, id, kind, seen, child)
  {
    var n := |sp.cmds|;
    var added := AddCommand(sp, id, session, seen.run, kind);
    AddRow(sp, id, session, seen.run, kind);
    EndRows(added, n, session);
    EndRows(added.(sessions := added.sessions[child := Active]), n, session);
  }

  lemma AcceptRows(sp: Spine, session: nat, id: nat, kind: Kind, seen: Seen, child: nat)
    requires session in sp.sessions && !HasId(sp.cmds, id)
    ensures Accepts(sp, Accepted(sp, session, id, kind, seen, child), session, id, kind, seen, child)
  {
    match kind
    case CloseSession => CloseAccepts(sp, session, id, seen, child);
    case ResumeRun => ResumeAccepts(sp, session, id, seen, child);
    case _ => OtherAccepts(sp, session, id, kind, seen, child);
  }
}
