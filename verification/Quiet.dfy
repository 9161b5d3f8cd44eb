/** What the shared transactions add to the journal about tool calls and background tasks: nothing, save
    where a step journals such an event itself. */
module Quiet {
  import opened Base
  import opened RunTable
  import opened Journal
  import opened Spine
  import opened Commands

  /** Events about tool calls and orphaned tasks. */
  predicate Special(b: Body) {
    b.ToolTold? || b.Orphaned?
  }

  function Count(sp: Spine, b: Body): nat {
    Told(sp.log.events)[b]
  }

  lemma AppendCount(log: Log<Body>, session: nat, body: Body, b: Body)
    ensures Told(Append(log, session, body).events)[b] == Told(log.events)[b] + One(b == body)
  {
    ToldAppend(log, session, body);
  }

  lemma TellCount(sp: Spine, session: nat, body: Body, b: Body)
    ensures Count(Tell(sp, session, body), b) == Count(sp, b) + One(b == body)
  {
    AppendCount(sp.log, session, body, b);
  }

  lemma {:induction false} ExpiryQuiet(gone: seq<bool>, b: Body)
    requires Special(b)
    ensures ExpiryTold(gone)[b] == 0
  {
    if gone != [] { ExpiryQuiet(gone[..|gone| - 1], b); }
  }

  lemma ExpireQuiet(sp: Spine, session: nat, gone: seq<bool>, b: Body)
    requires Special(b) && |gone| == |sp.cmds|
    ensures Count(ExpireAll(sp, session, gone), b) == Count(sp, b)
  {
    ToldAppendAll(sp.log, session, ExpiryEvents(gone));
    ExpiryBag(gone);
    ExpiryQuiet(gone, b);
  }

  lemma {:induction false} WarnQuiet(sp: Spine, session: nat, n: nat, b: Body)
    requires Special(b)
    ensures Count(sp.(log := AppendAll(sp.log, session, Warnings(n))), b) == Count(sp, b)
  {
    if n > 0 {
      WarnQuiet(sp, session, n - 1, b);
      assert Warnings(n)[..n - 1] == Warnings(n - 1);
      TellCount(sp.(log := AppendAll(sp.log, session, Warnings(n - 1))), session, Noted, b);
    }
  }

  lemma SweepQuiet(sp: Spine, r: nat, to: RunState, session: nat, b: Body)
    requires Special(b)
    ensures Count(SweepRun(sp, r, to, session), b) == Count(sp, b)
  {
    ExpireQuiet(sp, session, GoneWithRun(sp.cmds, r, to), b);
    var swept := ExpireAll(sp, session, GoneWithRun(sp.cmds, r, to));
    WarnQuiet(swept, session, Surviving(swept.cmds, r), b);
  }

  lemma TransitQuiet(sp: Spine, r: nat, c: RunCommand, cause: Option<Cause>, b: Body)
    requires Special(b) && Legal(sp, r, c)
    ensures Count(Transit(sp, r, c, cause), b) == Count(sp, b)
  {
    var to := Next(sp.runs[r].state, c).value;
    AppendCount(sp.log, sp.runs[r].session, RunMoved(r, to), b);
    SweepQuiet(Moved(sp, r, to, cause), r, to, sp.runs[r].session, b);
  }

  lemma WakeQuiet(sp: Spine, r: nat, b: Body)
    requires Special(b)
    ensures Count(WakeParked(sp, r), b) == Count(sp, b)
  {
    if r in sp.runs && sp.runs[r].state.Waiting? { TransitQuiet(sp, r, Resume, None, b); }
  }

  lemma CommandQuiet(sp: Spine, i: nat, session: nat, b: Body)
    requires Special(b) && i < |sp.cmds|
    ensures Count(ApplyQueued(sp, i, session), b) == Count(sp, b)
    ensures Count(RejectQueued(sp, i, session), b) == Count(sp, b)
  {
    AppendCount(sp.log, session, CmdApplied(i), b);
    AppendCount(sp.log, session, CmdRejected(i), b);
  }

  lemma AddQuiet(sp: Spine, id: nat, session: nat, run: Option<nat>, kind: Kind, b: Body)
    requires Special(b)
    ensures Count(AddCommand(sp, id, session, run, kind), b) == Count(sp, b)
  {
    AppendCount(sp.log, session, CmdAccepted(|sp.cmds|), b);
  }

  lemma CloseQuiet(sp: Spine, session: nat, i: nat, run: Option<nat>, b: Body)
    requires Special(b)
    ensures Count(CloseSweep(sp, session, i, run), b) == Count(sp, b)
  {
    if session in sp.sessions && (sp.sessions[session].Active? || sp.sessions[session].Paused?) {
      var closing := MovedSession(sp, session, Closing);
      AppendCount(sp.log, session, SessionMoved(Closing), b);
      var gone := GoneWithSession(closing.cmds, session, i);
      ExpireQuiet(closing, session, gone, b);
      var swept := ExpireAll(closing, session, gone);
      AppendCount(swept.log, session, SessionMoved(Closed), b);
      assert CloseSweep(sp, session, i, run) == if run.None? then MovedSession(swept, session, Closed) else swept;
    }
  }

  lemma ResumeQuiet(sp: Spine, session: nat, i: nat, run: Option<nat>, b: Body)
    requires Special(b) && i < |sp.cmds|
    ensures Count(Resumed(sp, session, i, run), b) == Count(sp, b)
  {
    CommandQuiet(sp, i, session, b);
    if run.Some? && run.value in sp.runs && sp.runs[run.value].state.Waiting? {
      WakeQuiet(sp, run.value, b);
      CommandQuiet(WakeParked(sp, run.value), i, sp.runs[run.value].session, b);
    }
  }

  lemma SettleCloseQuiet(sp: Spine, i: nat, session: nat, run: Option<nat>, child: nat, b: Body)
    requires Special(b) && i < |sp.cmds|
    ensures Count(Settled(sp, i, session, CloseSession, run, child), b) == Count(sp, b)
  {
    var swept := CloseSweep(sp, session, i, run);
    assert Count(swept, b) == Count(sp, b) by { CloseQuiet(sp, session, i, run, b); }
    CommandQuiet(swept, i, session, b);
    assert Settled(sp, i, session, CloseSession, run, child) == ApplyQueued(swept, i, session);
  }

  lemma SettleForkQuiet(sp: Spine, i: nat, session: nat, run: Option<nat>, child: nat, b: Body)
    requires Special(b) && i < |sp.cmds|
    ensures Count(Settled(sp, i, session, ForkSession, run, child), b) == Count(sp, b)
  {
    CommandQuiet(sp.(sessions := sp.sessions[child := Active]), i, session, b);
  }

  lemma SettleResumeQuiet(sp: Spine, i: nat, session: nat, run: Option<nat>, child: nat, b: Body)
    requires Special(b) && i < |sp.cmds|
    ensures Count(Settled(sp, i, session, ResumeRun, run, child), b) == Count(sp, b)
  {
    ResumeQuiet(sp, session, i, run, b);
  }

  lemma SettleClearQuiet(sp: Spine, i: nat, session: nat, run: Option<nat>, child: nat, b: Body)
    requires Special(b) && i < |sp.cmds|
    ensures Count(Settled(sp, i, session, ClearHistory, run, child), b) == Count(sp, b)
  {
    CommandQuiet(sp, i, session, b);
  }

  lemma SettleQuiet(sp: Spine, i: nat, session: nat, kind: Kind, run: Option<nat>, child: nat, b: Body)
    requires Special(b) && i < |sp.cmds| && Immediate(kind)
    ensures Count(Settled(sp, i, session, kind, run, child), b) == Count(sp, b)
  {
    match kind
    case CloseSession => SettleCloseQuiet(sp, i, session, run, child, b);
    case ForkSession => SettleForkQuiet(sp, i, session, run, child, b);
    case ResumeRun => SettleResumeQuiet(sp, i, session, run, child, b);
    case ClearHistory => SettleClearQuiet(sp, i, session, run, child, b);
  }

  lemma AcceptQuiet(sp: Spine, session: nat, id: nat, kind: Kind, seen: Seen, child: nat, b: Body)
    requires Special(b)
    ensures Count(Accepted(sp, session, id, kind, seen, child), b) == Count(sp, b)
  {
    if session in sp.sessions && !HasId(sp.cmds, id) {
      AddQuiet(sp, id, session, seen.run, kind, b);
      var added := AddCommand(sp, id, session, seen.run, kind);
      CommandQuiet(added, |sp.cmds|, session, b);
      if Immediate(kind) { SettleQuiet(added, |sp.cmds|, session, kind, seen.run, child, b); }
    }
  }

  lemma PauseQuiet(sp: Spine, r: nat, i: nat, b: Body)
    requires Special(b)
    ensures Count(PausedBy(sp, r, i), b) == Count(sp, b)
  {
    if Legal(sp, r, Wait) && Pending(sp, i) {
      TransitQuiet(sp, r, Wait, Some(ForPause), b);
      CommandQuiet(Transit(sp, r, Wait, Some(ForPause)), i, sp.runs[r].session, b);
    }
  }

  lemma InterruptQuiet(sp: Spine, r: nat, i: nat, b: Body)
    requires Special(b)
    ensures Count(InterruptedBy(sp, r, i), b) == Count(sp, b) && Count(AppliedTo(sp, r, i), b) == Count(sp, b)
  {
    if Live(sp, r) && Pending(sp, i) {
      CommandQuiet(sp, i, sp.runs[r].session, b);
      TellCount(sp, sp.runs[r].session, Noted, b);
      CommandQuiet(Tell(sp, sp.runs[r].session, Noted), i, sp.runs[r].session, b);
    }
  }

  lemma NotifyQuiet(sp: Spine, r: nat, id: nat, task: nat, b: Body)
    requires Special(b) && Can(sp, Notify(r, id, task))
    ensures Count(Do(sp, Notify(r, id, task)), b) == Count(sp, b)
  {
    AddQuiet(sp, id, sp.runs[r].session, Some(r), BackgroundNotice(task), b);
    WakeQuiet(AddCommand(sp, id, sp.runs[r].session, Some(r), BackgroundNotice(task)), r, b);
  }

  lemma StepQuiet(sp: Spine, a: Action, b: Body)
    requires Special(b) && Can(sp, a)
    ensures Count(Do(sp, a), b) == Count(sp, b) + One(a.Journal? && a.body == b)
  {
    match a
    case Accept(session, id, kind, seen, child) => AcceptQuiet(sp, session, id, kind, seen, child, b);
    case Apply(r, i) => InterruptQuiet(sp, r, i, b);
    case Pause(r, i) => PauseQuiet(sp, r, i, b);
    case Interrupt(r, i) => InterruptQuiet(sp, r, i, b);
    case Drive(r, c, cause) => TransitQuiet(sp, r, c, cause, b);
    case WakeUp(r) => WakeQuiet(sp, r, b);
    case Notify(r, id, task) => NotifyQuiet(sp, r, id, task, b);
    case Journal(session, body) => TellCount(sp, session, body, b);
    case ParkForCapacity(r) => TransitQuiet(sp, r, Wait, Some(ForCapacity), b);
    case WakeForCapacity(r) => WakeQuiet(sp, r, b);
    case _ =>
  }
}
