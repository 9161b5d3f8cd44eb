/** The transactions on the spine, one function each, and the life of a command through all of them
    (packages/coordinator/commands.go). */
module Commands {
  import opened Base
  import opened RunTable
  import opened Journal
  import opened Spine

  /** What AcceptCommand read without a lock: whether the session was active, its active root run, whether
      an approval was pending, and whether the project's policy allows the configuration asked for. */
  datatype Seen = Seen(active: bool, run: Option<nat>, approvalPending: bool, configAllowed: bool)

  predicate HasId(cmds: seq<Cmd>, id: nat) {
    exists i :: 0 <= i < |cmds| && cmds[i].id == id
  }

  predicate Pending(sp: Spine, i: nat) {
    i < |sp.cmds| && sp.cmds[i].state.InQueue?
  }

  predicate Live(sp: Spine, r: nat) {
    r in sp.runs && !Terminal(sp.runs[r].state)
  }

  // --- accept --------------------------------------------------------------------------------

  function GoneWithSession(cmds: seq<Cmd>, session: nat, except: nat): (gone: seq<bool>)
    ensures |gone| == |cmds|
  {
    seq(|cmds|, i requires 0 <= i < |cmds| => cmds[i].state.InQueue? && cmds[i].session == session && i != except)
  }

  function MovedSession(sp: Spine, session: nat, to: SessionState): Spine {
    sp.(sessions := sp.sessions[session := to], log := Append(sp.log, session, SessionMoved(to)))
  }

  /** applyCloseSessionTx up to the command's own end: the lock re-reads the session's state. */
  function CloseSweep(sp: Spine, session: nat, i: nat, run: Option<nat>): (out: Spine)
    ensures |out.cmds| == |sp.cmds|
  {
    if session in sp.sessions && (sp.sessions[session].Active? || sp.sessions[session].Paused?) then
      var closing := MovedSession(sp, session, Closing);
      var swept := ExpireAll(closing, session, GoneWithSession(closing.cmds, session, i));
      if run.None? then MovedSession(swept, session, Closed) else swept
    else sp
  }

  /** applyResumeTx. */
  function Resumed(sp: Spine, session: nat, i: nat, run: Option<nat>): Spine
    requires i < |sp.cmds|
  {
    if run.None? || run.value !in sp.runs || !sp.runs[run.value].state.Waiting? then RejectQueued(sp, i, session)
    else ApplyQueued(WakeParked(sp, run.value), i, sp.runs[run.value].session)
  }

  /** rejectionReason, changeConfigRejection and approvalRejection. */
  predicate Refused(kind: Kind, seen: Seen) {
    match kind
    case SendMessage => seen.run.None?
    case PauseRun => seen.run.None?
    case Approve => !seen.approvalPending
    case Deny => !seen.approvalPending
    case ChangeConfig => !seen.configAllowed
    case _ => true
  }

  /** The kinds AcceptCommand settles itself. */
  predicate Immediate(kind: Kind) {
    kind.CloseSession? || kind.ForkSession? || kind.ClearHistory? || kind.ResumeRun?
  }

  function Settled(sp: Spine, i: nat, session: nat, kind: Kind, run: Option<nat>, child: nat): Spine
    requires i < |sp.cmds|
  {
    match kind
    case CloseSession => ApplyQueued(CloseSweep(sp, session, i, run), i, session)
    case ForkSession => ApplyQueued(sp.(sessions := sp.sessions[child := Active]), i, session)
    case ResumeRun => Resumed(sp, session, i, run)
    case _ => ApplyQueued(sp, i, session)
  }

  predicate Turned(kind: Kind, seen: Seen) {
    if kind.CloseSession? then false
    else !seen.active || (!Immediate(kind) && Refused(kind, seen))
  }

  function Decided(sp: Spine, i: nat, session: nat, kind: Kind, seen: Seen, child: nat): Spine
    requires i < |sp.cmds|
  {
    if Turned(kind, seen) then RejectQueued(sp, i, session)
    else if Immediate(kind) then Settled(sp, i, session, kind, seen.run, child)
    else sp
  }

  /** AcceptCommand. An unknown session or an id already taken changes nothing. */
  function Accepted(sp: Spine, session: nat, id: nat, kind: Kind, seen: Seen, child: nat): Spine {
    if session !in sp.sessions || HasId(sp.cmds, id) then sp
    else Decided(AddCommand(sp, id, session, seen.run, kind), |sp.cmds|, session, kind, seen, child)
  }

  // --- apply, pause, interrupt, carry --------------------------------------------------------

  /** ApplyCommand: refused once the run is terminal, and once the command has left the queue. */
  function AppliedTo(sp: Spine, r: nat, i: nat): Spine {
    if Live(sp, r) && Pending(sp, i) then ApplyQueued(sp, i, sp.runs[r].session) else sp
  }

  function PausedBy(sp: Spine, r: nat, i: nat): Spine {
    if Legal(sp, r, Wait) && Pending(sp, i)
    then ApplyQueued(Transit(sp, r, Wait, Some(ForPause)), i, sp.runs[r].session)
    else sp
  }

  function InterruptedBy(sp: Spine, r: nat, i: nat): Spine {
    if Live(sp, r) && Pending(sp, i)
    then ApplyQueued(Tell(sp, sp.runs[r].session, Noted), i, sp.runs[r].session)
    else sp
  }

  predicate Carries(runs: map<nat, Run>, c: Cmd, session: nat, r: nat) {
    c.state.InQueue? && c.kind.SendMessage? && c.session == session
    && c.run.Some? && c.run.value != r && c.run.value in runs && Terminal(runs[c.run.value].state)
  }

  function CarryCount(runs: map<nat, Run>, cmds: seq<Cmd>, session: nat, r: nat): nat {
    if cmds == [] then 0
    else
      var n := |cmds| - 1;
      CarryCount(runs, cmds[..n], session, r) + One(Carries(runs, cmds[n], session, r))
  }

  /** CarrySessionSendMessages: what terminal runs left queued moves to the new run. */
  function Carried(sp: Spine, session: nat, r: nat): Spine {
    sp.(cmds := seq(|sp.cmds|, i requires 0 <= i < |sp.cmds| =>
      if Carries(sp.runs, sp.cmds[i], session, r) then sp.cmds[i].(run := Some(r)) else sp.cmds[i]))
  }

  // --- every transaction of the protocol, as the spine sees it -------------------------------

  datatype Action =
    | NewSession(session: nat)
    | NewRun(r: nat, session: nat)
    | Accept(session: nat, id: nat, kind: Kind, seen: Seen, child: nat)
    | Apply(r: nat, i: nat)
    | Pause(r: nat, i: nat)
    | Interrupt(r: nat, i: nat)
    | Carry(session: nat, r: nat)
    | Drive(r: nat, c: RunCommand, cause: Option<Cause>)
    | WakeUp(r: nat)
    | Notify(r: nat, id: nat, task: nat)
    | Journal(session: nat, body: Body)
    | Reenqueue(r: nat)
    | ParkForCapacity(r: nat)
    | WakeForCapacity(r: nat)
    | RecordAttempt(r: nat)

  /** Drive is ApplyRunTransition. Nothing resumes a run through it: each resume is a wake. */
  predicate Can(sp: Spine, a: Action) {
    match a
    case NewSession(session) => session !in sp.sessions
    case NewRun(r, session) => r !in sp.runs && session in sp.sessions
    case Drive(r, c, cause) => Legal(sp, r, c) && !c.Resume? && (cause != Some(ForCapacity))
    case Notify(r, id, _) => Live(sp, r) && !HasId(sp.cmds, id)
    case Journal(_, body) => !CommandBody(body)
    case Reenqueue(r) => r in sp.runs
    case ParkForCapacity(r) => Legal(sp, r, Wait)
    case WakeForCapacity(r) => r in sp.runs && sp.runs[r].state.Waiting? && r in sp.marked
    case RecordAttempt(r) => r in sp.runs
    case Accept(_, _, _, seen, child) => child !in sp.sessions && (seen.run.Some? ==> seen.run.value in sp.runs)
    case _ => true
  }

  function Do(sp: Spine, a: Action): Spine
    requires Can(sp, a)
  {
    match a
    case NewSession(session) => sp.(sessions := sp.sessions[session := Active])
    case NewRun(r, session) =>
      sp.(runs := sp.runs[r := Run(session, Queued, None)], jobs := sp.jobs + [r])
    case Accept(session, id, kind, seen, child) => Accepted(sp, session, id, kind, seen, child)
    case Apply(r, i) => AppliedTo(sp, r, i)
    case Pause(r, i) => PausedBy(sp, r, i)
    case Interrupt(r, i) => InterruptedBy(sp, r, i)
    case Carry(session, r) => Carried(sp, session, r)
    case Drive(r, c, cause) => Transit(sp, r, c, cause)
    case WakeUp(r) => WakeParked(sp, r)
    case Notify(r, id, task) =>
      WakeParked(AddCommand(sp, id, sp.runs[r].session, Some(r), BackgroundNotice(task)), r)
    case Journal(session, body) => Tell(sp, session, body)
    case Reenqueue(r) => sp.(jobs := sp.jobs + [r])
    case ParkForCapacity(r) => Transit(sp, r, Wait, Some(ForCapacity)).(marked := sp.marked + {r})
    case WakeForCapacity(r) => WakeParked(sp, r)
    case RecordAttempt(r) => sp.(marked := sp.marked - {r})
  }

  // --- what each transaction does to runs and jobs -------------------------------------------

  function Driven(runs: map<nat, Run>, r: nat, c: RunCommand, cause: Option<Cause>): map<nat, Run>
    requires r in runs && Next(runs[r].state, c).Some?
  {
    var to := Next(runs[r].state, c).value;
    runs[r := runs[r].(state := to, cause := if to.Waiting? then cause else None)]
  }

  function Woken(runs: map<nat, Run>, r: nat): map<nat, Run> {
    if r in runs && runs[r].state.Waiting? then Driven(runs, r, Resume, None) else runs
  }

  function WakeJobs(runs: map<nat, Run>, r: nat): seq<nat> {
    if r in runs && runs[r].state.Waiting? then [r] else []
  }

  /** The run an accepted resume command wakes, if it wakes one. */
  predicate Resumes(sp: Spine, session: nat, id: nat, kind: Kind, seen: Seen) {
    session in sp.sessions && !HasId(sp.cmds, id) && seen.active && kind.ResumeRun? && seen.run.Some?
  }

  lemma TransitRuns(sp: Spine, r: nat, c: RunCommand, cause: Option<Cause>)
    requires Legal(sp, r, c)
    ensures var out := Transit(sp, r, c, cause);
      out.runs == Driven(sp.runs, r, c, cause) && out.jobs == sp.jobs && out.marked == sp.marked
  {
  }

  lemma WakeRuns(sp: Spine, r: nat)
    ensures var out := WakeParked(sp, r);
      out.runs == Woken(sp.runs, r) && out.jobs == sp.jobs + WakeJobs(sp.runs, r) && out.marked == sp.marked
  {
    if r in sp.runs && sp.runs[r].state.Waiting? { TransitRuns(sp, r, Resume, None); }
  }

  predicate SameRuns(a: Spine, b: Spine) {
    a.runs == b.runs && a.jobs == b.jobs && a.marked == b.marked
  }

  /** out is sp after waking r: r resumed and enqueued if it was waiting. */
  predicate WokeRuns(sp: Spine, r: nat, out: Spine) {
    out.runs == Woken(sp.runs, r) && out.jobs == sp.jobs + WakeJobs(sp.runs, r) && out.marked == sp.marked
  }

  lemma ResumeRuns(sp: Spine, session: nat, i: nat, run: Option<nat>)
    requires i < |sp.cmds|
    ensures if run.Some? then WokeRuns(sp, run.value, Resumed(sp, session, i, run))
            else SameRuns(sp, Resumed(sp, session, i, run))
  {
    if run.Some? { WakeRuns(sp, run.value); }
  }

  lemma SettleRuns(sp: Spine, i: nat, session: nat, kind: Kind, run: Option<nat>, child: nat)
    requires i < |sp.cmds| && !kind.ResumeRun?
    ensures SameRuns(sp, Settled(sp, i, session, kind, run, child))
  {
  }

  lemma DecideRuns(sp: Spine, i: nat, session: nat, kind: Kind, seen: Seen, child: nat)
    requires i < |sp.cmds|
    ensures var out := Decided(sp, i, session, kind, seen, child);
      if seen.active && kind.ResumeRun? && seen.run.Some? then WokeRuns(sp, seen.run.value, out) else SameRuns(sp, out)
  {
    if kind.ResumeRun? {
      ResumeRuns(sp, session, i, seen.run);
    } else {
      SettleRuns(sp, i, session, kind, seen.run, child);
    }
  }

  lemma AcceptRuns(sp: Spine, session: nat, id: nat, kind: Kind, seen: Seen, child: nat)
    ensures var out := Accepted(sp, session, id, kind, seen, child);
      if Resumes(sp, session, id, kind, seen) then WokeRuns(sp, seen.run.value, out) else SameRuns(sp, out)
  {
    if session in sp.sessions && !HasId(sp.cmds, id) {
      DecideRuns(AddCommand(sp, id, session, seen.run, kind), |sp.cmds|, session, kind, seen, child);
    }
  }

  /** Runs after a step, told by the transition it makes. */
  function RunsAfter(sp: Spine, a: Action): map<nat, Run>
    requires Can(sp, a)
  {
    match a
    case NewRun(r, session) => sp.runs[r := Run(session, Queued, None)]
    case Accept(session, id, kind, seen, child) =>
      if Resumes(sp, session, id, kind, seen) then Woken(sp.runs, seen.run.value) else sp.runs
    case Pause(r, i) =>
      if Legal(sp, r, Wait) && Pending(sp, i) then Driven(sp.runs, r, Wait, Some(ForPause)) else sp.runs
    case Drive(r, c, cause) => Driven(sp.runs, r, c, cause)
    case WakeUp(r) => Woken(sp.runs, r)
    case Notify(r, _, _) => Woken(sp.runs, r)
    case ParkForCapacity(r) => Driven(sp.runs, r, Wait, Some(ForCapacity))
    case WakeForCapacity(r) => Woken(sp.runs, r)
    case _ => sp.runs
  }

  /** Jobs a step adds. */
  function JobsAdded(sp: Spine, a: Action): seq<nat>
    requires Can(sp, a)
  {
    match a
    case NewRun(r, _) => [r]
    case Reenqueue(r) => [r]
    case Accept(session, id, kind, seen, child) =>
      if Resumes(sp, session, id, kind, seen) then WakeJobs(sp.runs, seen.run.value) else []
    case WakeUp(r) => WakeJobs(sp.runs, r)
    case Notify(r, _, _) => WakeJobs(sp.runs, r)
    case WakeForCapacity(r) => WakeJobs(sp.runs, r)
    case _ => []
  }

  function MarkedAfter(sp: Spine, a: Action): set<nat> {
    match a
    case ParkForCapacity(r) => sp.marked + {r}
    case RecordAttempt(r) => sp.marked - {r}
    case _ => sp.marked
  }

  lemma StepEffect(sp: Spine, a: Action)
    requires Can(sp, a)
    ensures Do(sp, a).runs == RunsAfter(sp, a)
    ensures Do(sp, a).jobs == sp.jobs + JobsAdded(sp, a)
    ensures Do(sp, a).marked == MarkedAfter(sp, a)
  {
    match a
    case Accept(session, id, kind, seen, child) => AcceptRuns(sp, session, id, kind, seen, child);
    case Pause(r, i) => if Legal(sp, r, Wait) { TransitRuns(sp, r, Wait, Some(ForPause)); }
    case Drive(r, c, cause) => TransitRuns(sp, r, c, cause);
    case WakeUp(r) => WakeRuns(sp, r);
    case Notify(r, id, task) => WakeRuns(AddCommand(sp, id, sp.runs[r].session, Some(r), BackgroundNotice(task)), r);
    case ParkForCapacity(r) => TransitRuns(sp, r, Wait, Some(ForCapacity));
    case WakeForCapacity(r) => WakeRuns(sp, r);
    case _ =>
  }

  // --- how a waiting run goes on -------------------------------------------------------------

  /** The steps that take a waiting run out of its wait: a resume, each of the wakes, and whatever ends it. */
  predicate LeavesWait(sp: Spine, a: Action, r: nat) {
    match a
    case Accept(session, id, kind, seen, _) => Resumes(sp, session, id, kind, seen) && seen.run == Some(r)
    case Drive(q, _, _) => q == r
    case WakeUp(q) => q == r
    case Notify(q, _, _) => q == r
    case WakeForCapacity(q) => q == r
    case _ => false
  }

  lemma WaitLeft(sp: Spine, a: Action, r: nat)
    requires Can(sp, a) && r in sp.runs && sp.runs[r].state.Waiting?
    ensures r in RunsAfter(sp, a) && (RunsAfter(sp, a)[r].state.Waiting? <==> !LeavesWait(sp, a, r))
    ensures !LeavesWait(sp, a, r) ==> RunsAfter(sp, a)[r] == sp.runs[r]
  {
  }

  // --- the journal through every transaction -------------------------------------------------

  lemma SessionMoveJournaled(sp: Spine, session: nat, to: SessionState)
    requires Journaled(sp)
    ensures Journaled(MovedSession(sp, session, to))
  {
    TellJournaled(sp, session, SessionMoved(to));
  }

  lemma CloseKeepsQueued(sp: Spine, session: nat, i: nat, run: Option<nat>)
    requires Pending(sp, i)
    ensures Pending(CloseSweep(sp, session, i, run), i)
  {
  }

  lemma CloseJournaled(sp: Spine, session: nat, i: nat, run: Option<nat>)
    requires Journaled(sp)
    ensures Journaled(CloseSweep(sp, session, i, run))
  {
    if session in sp.sessions && (sp.sessions[session].Active? || sp.sessions[session].Paused?) {
      SessionMoveJournaled(sp, session, Closing);
      var closing := MovedSession(sp, session, Closing);
      var gone := GoneWithSession(closing.cmds, session, i);
      ExpireJournaled(closing, session, gone);
      var swept := ExpireAll(closing, session, gone);
      SessionMoveJournaled(swept, session, Closed);
      assert CloseSweep(sp, session, i, run) == if run.None? then MovedSession(swept, session, Closed) else swept;
    }
  }

  lemma ResumeJournaled(sp: Spine, session: nat, i: nat, run: Option<nat>)
    requires Journaled(sp) && Pending(sp, i)
    ensures Journaled(Resumed(sp, session, i, run))
  {
    if run.None? || run.value !in sp.runs || !sp.runs[run.value].state.Waiting? {
      RejectJournaled(sp, i, session);
    } else {
      WakeJournaled(sp, run.value);
      ApplyJournaled(WakeParked(sp, run.value), i, sp.runs[run.value].session);
      assert Resumed(sp, session, i, run) == ApplyQueued(WakeParked(sp, run.value), i, sp.runs[run.value].session);
    }
  }

  lemma CloseApplied(sp: Spine, i: nat, session: nat, run: Option<nat>)
    requires Journaled(sp) && Pending(sp, i)
    ensures Pending(CloseSweep(sp, session, i, run), i)
    ensures Journaled(ApplyQueued(CloseSweep(sp, session, i, run), i, session))
  {
    CloseKeepsQueued(sp, session, i, run);
    CloseJournaled(sp, session, i, run);
    ApplyJournaled(CloseSweep(sp, session, i, run), i, session);
  }

  lemma ForkApplied(sp: Spine, i: nat, session: nat, child: nat)
    requires Journaled(sp) && Pending(sp, i)
    ensures Journaled(ApplyQueued(sp.(sessions := sp.sessions[child := Active]), i, session))
  {
    ApplyJournaled(sp.(sessions := sp.sessions[child := Active]), i, session);
  }

  lemma SettleJournaled(sp: Spine, i: nat, session: nat, kind: Kind, run: Option<nat>, child: nat)
    requires Journaled(sp) && Pending(sp, i)
    ensures Journaled(Settled(sp, i, session, kind, run, child))
  {
    var out := Settled(sp, i, session, kind, run, child);
    if kind.CloseSession? {
      CloseApplied(sp, i, session, run);
      assert out == ApplyQueued(CloseSweep(sp, session, i, run), i, session);
    } else if kind.ForkSession? {
      ForkApplied(sp, i, session, child);
      assert out == ApplyQueued(sp.(sessions := sp.sessions[child := Active]), i, session);
    } else if kind.ResumeRun? {
      ResumeJournaled(sp, session, i, run);
      assert out == Resumed(sp, session, i, run);
    } else {
      ApplyJournaled(sp, i, session);
      assert out == ApplyQueued(sp, i, session);
    }
  }

  lemma DecideJournaled(sp: Spine, i: nat, session: nat, kind: Kind, seen: Seen, child: nat)
    requires Journaled(sp) && Pending(sp, i)
    ensures Journaled(Decided(sp, i, session, kind, seen, child))
  {
    if Turned(kind, seen) {
      RejectJournaled(sp, i, session);
    } else if Immediate(kind) {
      SettleJournaled(sp, i, session, kind, seen.run, child);
    }
  }

  lemma AcceptJournaled(sp: Spine, session: nat, id: nat, kind: Kind, seen: Seen, child: nat)
    requires Journaled(sp)
    ensures Journaled(Accepted(sp, session, id, kind, seen, child))
  {
    if session in sp.sessions && !HasId(sp.cmds, id) {
      AddJournaled(sp, id, session, seen.run, kind);
      DecideJournaled(AddCommand(sp, id, session, seen.run, kind), |sp.cmds|, session, kind, seen, child);
    }
  }

  lemma PauseJournaled(sp: Spine, r: nat, i: nat)
    requires Journaled(sp)
    ensures Journaled(PausedBy(sp, r, i))
  {
    if Legal(sp, r, Wait) && Pending(sp, i) {
      TransitJournaled(sp, r, Wait, Some(ForPause));
      ApplyJournaled(Transit(sp, r, Wait, Some(ForPause)), i, sp.runs[r].session);
      assert PausedBy(sp, r, i) == ApplyQueued(Transit(sp, r, Wait, Some(ForPause)), i, sp.runs[r].session);
    }
  }

  lemma InterruptJournaled(sp: Spine, r: nat, i: nat)
    requires Journaled(sp)
    ensures Journaled(InterruptedBy(sp, r, i)) && Journaled(AppliedTo(sp, r, i))
  {
    if Live(sp, r) && Pending(sp, i) {
      TellJournaled(sp, sp.runs[r].session, Noted);
      ApplyJournaled(Tell(sp, sp.runs[r].session, Noted), i, sp.runs[r].session);
      ApplyJournaled(sp, i, sp.runs[r].session);
    }
  }

  lemma CarryJournaled(sp: Spine, session: nat, r: nat)
    requires Journaled(sp)
    ensures Journaled(Carried(sp, session, r))
  {
    var out := Carried(sp, session, r).cmds;
    var told := Told(sp.log.events);
    forall i | 0 <= i < |out| ensures LifeTold(told, i, out[i]) {
      assert LifeTold(told, i, sp.cmds[i]);
    }
  }

  lemma NotifyJournaled(sp: Spine, r: nat, id: nat, task: nat)
    requires Journaled(sp) && Can(sp, Notify(r, id, task))
    ensures Journaled(Do(sp, Notify(r, id, task)))
  {
    AddJournaled(sp, id, sp.runs[r].session, Some(r), BackgroundNotice(task));
    WakeJournaled(AddCommand(sp, id, sp.runs[r].session, Some(r), BackgroundNotice(task)), r);
  }

  lemma StepJournaled(sp: Spine, a: Action)
    requires Journaled(sp) && Can(sp, a)
    ensures Journaled(Do(sp, a))
  {
    match a
    case Accept(session, id, kind, seen, child) => AcceptJournaled(sp, session, id, kind, seen, child);
    case Apply(r, i) => InterruptJournaled(sp, r, i);
    case Pause(r, i) => PauseJournaled(sp, r, i);
    case Interrupt(r, i) => InterruptJournaled(sp, r, i);
    case Carry(session, r) => CarryJournaled(sp, session, r);
    case Drive(r, c, cause) => TransitJournaled(sp, r, c, cause);
    case WakeUp(r) => WakeJournaled(sp, r);
    case Notify(r, id, task) => NotifyJournaled(sp, r, id, task);
    case Journal(session, body) => TellJournaled(sp, session, body);
    case ParkForCapacity(r) => TransitJournaled(sp, r, Wait, Some(ForCapacity));
    case WakeForCapacity(r) => WakeJournaled(sp, r);
    case _ =>
  }
}
