/** The shared tables as the store's methods update them, statement by statement (packages/coordinator/
    store.go:462-545, commands.go). Each method is one transaction and is proved to be the function of the
    same transaction in Spine and Commands. */
module SpineTables {
  import opened Base
  import opened RunTable
  import opened Journal
  import opened Spine
  import opened Commands
  import Effects

  class SpineStore {
    var runs: map<nat, Run>
    var sessions: map<nat, SessionState>
    var jobs: seq<nat>
    var marked: set<nat>
    var cmds: seq<Cmd>
    var events: seq<Event<Body>>
    var last: map<nat, nat>

    constructor ()
      ensures View() == Spine(map[], map[], [], {}, [], Log([], map[]))
    {
      runs, sessions, jobs, marked, cmds, events, last := map[], map[], [], {}, [], [], map[];
    }

    ghost function View(): Spine
      reads this
    {
      Spine(runs, sessions, jobs, marked, cmds, Log(events, last))
    }

    /** AllocateSequence and AppendEvent; returns the number given. */
    method AppendEvent(session: nat, body: Body) returns (n: nat)
      modifies this`events, this`last
      ensures View() == Tell(old(View()), session, body)
      ensures n == Last(old(View()).log, session) + 1
      ensures events == old(events) + [Event(session, n, body)] && last == old(last)[session := n]
    {
      n := (if session in last then last[session] else 0) + 1;
      last := last[session := n];
      events := events + [Event(session, n, body)];
    }

    method AppendEach(session: nat, bodies: seq<Body>)
      modifies this`events, this`last
      ensures View() == old(View()).(log := AppendAll(old(View()).log, session, bodies))
      ensures Effects.Added(old(View()).log, View().log, session, bodies)
    {
      ghost var log := View().log;
      for k := 0 to |bodies|
        invariant View() == old(View()).(log := AppendAll(log, session, bodies[..k]))
      {
        assert bodies[..k + 1][..k] == bodies[..k];
        var _ := AppendEvent(session, bodies[k]);
      }
      assert bodies[..|bodies|] == bodies;
      Effects.AppendAllAdds(log, session, bodies);
    }

    /** The UPDATE ... RETURNING of a sweep: expires the rows flagged and collects their events. */
    method ExpireRows(gone: seq<bool>) returns (bodies: seq<Body>)
      requires |gone| == |cmds|
      modifies this`cmds
      ensures View() == old(View()).(cmds := ExpireEach(old(cmds), gone))
      ensures bodies == ExpiryEvents(gone)
    {
      bodies := [];
      var rows: seq<Cmd> := [];
      for i := 0 to |cmds|
        invariant cmds == old(cmds) && rows == ExpireEach(cmds, gone)[..i]
        invariant bodies == ExpiryEvents(gone[..i])
      {
        assert gone[..i + 1][..i] == gone[..i];
        if gone[i] {
          rows := rows + [cmds[i].(state := Expired)];
          bodies := bodies + [CmdExpired(i)];
        } else {
          rows := rows + [cmds[i]];
        }
      }
      assert gone[..|cmds|] == gone;
      cmds := rows;
    }

    method CountSurviving(r: nat) returns (n: nat)
      ensures n == Surviving(cmds, r)
    {
      n := 0;
      for i := 0 to |cmds|
        invariant n == Surviving(cmds[..i], r)
      {
        assert cmds[..i + 1][..i] == cmds[..i];
        if cmds[i].state.InQueue? && cmds[i].run == Some(r) && cmds[i].kind.SendMessage? { n := n + 1; }
      }
      assert cmds[..|cmds|] == cmds;
    }

    method SweepQueuedCommands(r: nat, to: RunState, session: nat)
      modifies this`cmds, this`events, this`last
      ensures View() == SweepRun(old(View()), r, to, session)
      ensures Effects.RunSwept(old(cmds), cmds, r, to)
      ensures Effects.SweepTold(old(View()), View(), r, to, session)
    {
      Effects.SweepRows(View(), r, to, session);
      Effects.SweepTells(View(), r, to, session);
      var flags := GoneWithRun(cmds, r, to);
      var bodies := ExpireRows(flags);
      AppendEach(session, bodies);
      if to.Completed? {
        var n := CountSurviving(r);
        AppendEach(session, Warnings(n));
      }
    }

    /** applyRunTransitionTx: false is ErrRunTerminal or ErrInvalidState, and then nothing changed. */
    method ApplyRunTransition(r: nat, c: RunCommand, cause: Option<Cause>) returns (ok: bool)
      modifies this`runs, this`cmds, this`events, this`last
      ensures ok <==> Legal(old(View()), r, c)
      ensures View() == if ok then Transit(old(View()), r, c, cause) else old(View())
      ensures ok ==> Effects.Transits(old(View()), View(), r, c, cause)
      ensures ok ==> Effects.TransitTold(old(View()), View(), r, runs[r].state)
    {
      if r in runs && Next(runs[r].state, c).Some? {
        Effects.TransitRows(View(), r, c, cause);
        Effects.TransitTells(View(), r, c, cause);
      }
      if r !in runs { return false; }
      var to := RunTable.Apply(runs[r].state, c);
      if to.None? { return false; }
      var run := runs[r];
      runs := runs[r := run.(state := to.value, cause := if to.value.Waiting? then cause else None)];
      var _ := AppendEvent(run.session, RunMoved(r, to.value));
      assert View() == Moved(old(View()), r, to.value, cause);
      if Terminal(to.value) { SweepQueuedCommands(r, to.value, run.session); }
      return true;
    }

    method WakeParkedRun(r: nat) returns (woke: bool)
      modifies this`runs, this`cmds, this`events, this`last, this`jobs
      ensures View() == WakeParked(old(View()), r)
      ensures woke <==> r in old(runs) && old(runs)[r].state.Waiting?
      ensures Effects.Wakes(old(View()), View(), Some(r)) && cmds == old(cmds)
    {
      Effects.WakeRows(View(), r);
      if r !in runs || !runs[r].state.Waiting? { return false; }
      var _ := ApplyRunTransition(r, Resume, None);
      jobs := jobs + [r];
      return true;
    }

    method FindId(id: nat) returns (found: bool)
      ensures found == HasId(cmds, id)
    {
      found := false;
      for i := 0 to |cmds|
        invariant found == exists k :: 0 <= k < i && cmds[k].id == id
      {
        if cmds[i].id == id { found := true; }
      }
    }

    /** applyCommandInTx: None is ErrCommandNotPending. */
    method ApplyInTx(i: nat, session: nat) returns (applied: Option<nat>)
      modifies this`cmds, this`events, this`last
      ensures applied.Some? <==> Pending(old(View()), i)
      ensures View() == if applied.Some? then ApplyQueued(old(View()), i, session) else old(View())
      ensures applied.Some? ==> View().cmds[i].applied == applied
      ensures applied.Some? ==> events == old(events) + [Event(session, applied.value, CmdApplied(i))]
                                && cmds == old(cmds)[i := old(cmds)[i].(state := Applied, applied := applied)]
    {
      if i >= |cmds| || !cmds[i].state.InQueue? { return None; }
      var n := AppendEvent(session, CmdApplied(i));
      cmds := cmds[i := cmds[i].(state := Applied, applied := Some(n))];
      return Some(n);
    }

    method RejectInTx(i: nat, session: nat)
      requires i < |cmds|
      modifies this`cmds, this`events, this`last
      ensures View() == RejectQueued(old(View()), i, session)
      ensures cmds == old(cmds)[i := old(cmds)[i].(state := Rejected)]
    {
      cmds := cmds[i := cmds[i].(state := Rejected)];
      var _ := AppendEvent(session, CmdRejected(i));
    }

    method MoveSession(session: nat, to: SessionState)
      modifies this`sessions, this`events, this`last
      ensures View() == MovedSession(old(View()), session, to)
    {
      sessions := sessions[session := to];
      var _ := AppendEvent(session, SessionMoved(to));
    }

    method CloseInTx(session: nat, i: nat, run: Option<nat>)
      modifies this`sessions, this`cmds, this`events, this`last
      ensures View() == CloseSweep(old(View()), session, i, run)
      ensures Effects.Closes(old(View()), View(), session, i, run)
      ensures Effects.CloseTold(old(View()), View(), session, run)
    {
      Effects.CloseTells(View(), session, i, run);
      Effects.CloseRows(View(), session, i, run);
      if session in sessions && (sessions[session].Active? || sessions[session].Paused?) {
        MoveSession(session, Closing);
        var flags := GoneWithSession(cmds, session, i);
        var bodies := ExpireRows(flags);
        AppendEach(session, bodies);
        if run.None? { MoveSession(session, Closed); }
      }
    }

    method ResumeInTx(session: nat, i: nat, run: Option<nat>)
      requires i < |cmds| && cmds[i].state.InQueue?
      modifies this`runs, this`jobs, this`cmds, this`events, this`last
      ensures View() == Resumed(old(View()), session, i, run)
      ensures Effects.Wakes(old(View()), View(), run) && |cmds| == |old(cmds)|
      ensures cmds[i].state == if Effects.Waits(old(runs), run) then Applied else Rejected
      ensures forall k :: 0 <= k < |cmds| && k != i ==> cmds[k] == old(cmds)[k]
    {
      if run.None? || run.value !in runs || !runs[run.value].state.Waiting? {
        RejectInTx(i, session);
        return;
      }
      var home := runs[run.value].session;
      var _ := WakeParkedRun(run.value);
      var _ := ApplyInTx(i, home);
    }

    method InsertCommand(id: nat, session: nat, run: Option<nat>, kind: Kind)
      modifies this`cmds, this`events, this`last
      ensures View() == AddCommand(old(View()), id, session, run, kind)
      ensures cmds == old(cmds) + [Cmd(id, session, run, kind, InQueue, None)]
    {
      var i := |cmds|;
      cmds := cmds + [Cmd(id, session, run, kind, InQueue, None)];
      var _ := AppendEvent(session, CmdAccepted(i));
    }

    method SettleInTx(i: nat, session: nat, kind: Kind, run: Option<nat>, child: nat)
      requires i < |cmds| && cmds[i].state.InQueue? && Immediate(kind)
      modifies this
      ensures View() == Settled(old(View()), i, session, kind, run, child)
    {
      match kind {
        case CloseSession =>
          CloseKeepsQueued(View(), session, i, run);
          CloseInTx(session, i, run);
          var _ := ApplyInTx(i, session);
        case ForkSession =>
          sessions := sessions[child := Active];
          var _ := ApplyInTx(i, session);
        case ResumeRun =>
          ResumeInTx(session, i, run);
        case ClearHistory =>
          var _ := ApplyInTx(i, session);
      }
    }

    /** AcceptCommand; replayed is the answer to an id already taken. */
    method AcceptCommand(session: nat, id: nat, kind: Kind, seen: Seen, child: nat)
      returns (found: bool, replayed: bool)
      modifies this
      ensures View() == Accepted(old(View()), session, id, kind, seen, child)
      ensures found <==> session in old(sessions)
      ensures replayed <==> found && exists k :: 0 <= k < |old(cmds)| && old(cmds)[k].id == id
      ensures !found || replayed ==> View() == old(View())
      ensures found && !replayed ==> Effects.Accepts(old(View()), View(), session, id, kind, seen, child)
    {
      if session !in sessions { return false, false; }
      var taken := FindId(id);
      if taken { return true, true; }
      Effects.AcceptRows(View(), session, id, kind, seen, child);
      var i := |cmds|;
      InsertCommand(id, session, seen.run, kind);
      if Turned(kind, seen) {
        RejectInTx(i, session);
      } else if Immediate(kind) {
        SettleInTx(i, session, kind, seen.run, child);
      }
      return true, false;
    }

    /** guardRunActive. */
    predicate RunActive(r: nat)
      reads this
    {
      r in runs && !Terminal(runs[r].state)
    }

    method ApplyCommand(r: nat, i: nat) returns (applied: Option<nat>)
      modifies this`cmds, this`events, this`last
      ensures View() == AppliedTo(old(View()), r, i)
      ensures applied.Some? <==>
        r in runs && !Terminal(runs[r].state) && i < |old(cmds)| && old(cmds)[i].state == InQueue
      ensures cmds == if applied.Some? then old(cmds)[i := old(cmds)[i].(state := Applied, applied := applied)]
                      else old(cmds)
    {
      if !RunActive(r) { return None; }
      applied := ApplyInTx(i, runs[r].session);
    }

    /** The transition is rolled back with the rest when the command is no longer pending. */
    method PauseRun(r: nat, i: nat) returns (applied: Option<nat>)
      modifies this`runs, this`cmds, this`events, this`last
      ensures View() == PausedBy(old(View()), r, i)
      ensures applied.Some? <==> r in old(runs) && old(runs)[r].state == Running
                                 && i < |old(cmds)| && old(cmds)[i].state == InQueue
      ensures applied.Some? ==>
                runs == old(runs)[r := Run(old(runs)[r].session, Waiting, Some(ForPause))]
                && cmds == old(cmds)[i := old(cmds)[i].(state := Applied, applied := applied)]
      ensures applied.None? ==> View() == old(View())
    {
      if r !in runs || !runs[r].state.Running? || i >= |cmds| || !cmds[i].state.InQueue? { return None; }
      var session := runs[r].session;
      var _ := ApplyRunTransition(r, Wait, Some(ForPause));
      applied := ApplyInTx(i, session);
    }

    method InterruptModelStep(r: nat, i: nat) returns (applied: Option<nat>)
      modifies this`cmds, this`events, this`last
      ensures View() == InterruptedBy(old(View()), r, i)
      ensures applied.Some? <==>
        r in runs && !Terminal(runs[r].state) && i < |old(cmds)| && old(cmds)[i].state == InQueue
      ensures cmds == if applied.Some? then old(cmds)[i := old(cmds)[i].(state := Applied, applied := applied)]
                      else old(cmds)
      ensures |events| == |old(events)| + if applied.Some? then 2 else 0
    {
      if !RunActive(r) || i >= |cmds| || !cmds[i].state.InQueue? { return None; }
      var _ := AppendEvent(runs[r].session, Noted);
      applied := ApplyInTx(i, runs[r].session);
    }

    method CarrySessionSendMessages(session: nat, r: nat) returns (n: nat)
      modifies this`cmds
      ensures View() == Carried(old(View()), session, r)
      ensures n == CarryCount(runs, old(cmds), session, r) && (n == 0 <==> cmds == old(cmds))
      ensures Effects.RowsCarried(runs, old(cmds), cmds, session, r)
    {
      n := 0;
      var rows: seq<Cmd> := [];
      ghost var goal := Carried(View(), session, r).cmds;
      for i := 0 to |cmds|
        invariant cmds == old(cmds) && rows == goal[..i]
        invariant n == CarryCount(runs, cmds[..i], session, r)
      {
        assert cmds[..i + 1][..i] == cmds[..i] && goal[..i + 1] == goal[..i] + [goal[i]];
        if Carries(runs, cmds[i], session, r) {
          rows := rows + [cmds[i].(run := Some(r))];
          n := n + 1;
        } else {
          rows := rows + [cmds[i]];
        }
      }
      assert cmds[..|cmds|] == cmds && goal[..|cmds|] == goal;
      Effects.CarryNothing(View(), session, r);
      Effects.CarryRows(View(), session, r);
      cmds := rows;
    }

    /** ParkRunForCapacity, without the job's refund: see Jobs. */
    method ParkRunForCapacity(r: nat) returns (ok: bool)
      modifies this`runs, this`cmds, this`events, this`last, this`marked
      ensures ok <==> Can(old(View()), ParkForCapacity(r))
      ensures View() == if ok then Do(old(View()), ParkForCapacity(r)) else old(View())
      ensures ok <==> r in old(runs) && old(runs)[r].state == Running
      ensures ok ==> runs == old(runs)[r := Run(old(runs)[r].session, Waiting, Some(ForCapacity))]
                     && marked == old(marked) + {r}
    {
      ok := ApplyRunTransition(r, Wait, Some(ForCapacity));
      if ok { marked := marked + {r}; }
    }

    /** wakeRunAwaitingCapacityTx on the candidate its query selected. */
    method WakeRunAwaitingCapacity(r: nat) returns (woke: bool)
      modifies this`runs, this`jobs, this`cmds, this`events, this`last
      ensures woke <==> Can(old(View()), WakeForCapacity(r))
      ensures View() == if woke then Do(old(View()), WakeForCapacity(r)) else old(View())
      ensures woke <==> r in marked && r in old(runs) && old(runs)[r].state == Waiting
      ensures woke ==> Effects.Wakes(old(View()), View(), Some(r))
    {
      if r !in marked { return false; }
      woke := WakeParkedRun(r);
    }
  }
}
