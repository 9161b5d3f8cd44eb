/** The tables every transaction of the run protocol shares: runs, sessions, response.run jobs, commands
    and the session journal; and the few moves those transactions are made of (packages/coordinator/
    store.go:462-545, commands.go, orchestration.go:459-473). One tenant: every statement is scoped to it. */
module Spine {
  import opened Base
  import opened RunTable
  import opened Journal

  /** Why a run is waiting. History: the row says only `waiting`. */
  datatype Cause = ForPause | ForApproval | ForChild | ForBackground | ForCapacity

  datatype Run = Run(session: nat, state: RunState, cause: Option<Cause>)

  datatype SessionState = Active | Paused | Closing | Closed | Deleted

  datatype Kind =
    | SendMessage | PauseRun | ResumeRun | Approve | Deny | ChangeConfig
    | CloseSession | ForkSession | ClearHistory | BackgroundNotice(task: nat) | OtherKind

  datatype CommandState = InQueue | Applied | Rejected | Expired

  datatype Cmd = Cmd(id: nat, session: nat, run: Option<nat>, kind: Kind, state: CommandState, applied: Option<nat>)

  datatype ToolMark = Executing | Finished | Doubted | Reconciled | Readied | Withdrawn | Asked

  /** What an event says. Commands are named by their row. */
  datatype Body =
    | CmdAccepted(i: nat) | CmdApplied(i: nat) | CmdRejected(i: nat) | CmdExpired(i: nat)
    | RunMoved(r: nat, to: RunState) | SessionMoved(to_: SessionState)
    | ToolTold(call: nat, mark: ToolMark) | Orphaned(task: nat) | Noted

  /** marked: runs with an attempt in awaiting_capacity. */
  datatype Spine = Spine(
    runs: map<nat, Run>, sessions: map<nat, SessionState>, jobs: seq<nat>, marked: set<nat>,
    cmds: seq<Cmd>, log: Log<Body>)

  predicate CommandBody(b: Body) {
    b.CmdAccepted? || b.CmdApplied? || b.CmdRejected? || b.CmdExpired?
  }

  // --- moves ---------------------------------------------------------------------------------

  function Tell(sp: Spine, session: nat, body: Body): Spine {
    sp.(log := Append(sp.log, session, body))
  }

  function AddCommand(sp: Spine, id: nat, session: nat, run: Option<nat>, kind: Kind): Spine {
    sp.(cmds := sp.cmds + [Cmd(id, session, run, kind, InQueue, None)],
        log := Append(sp.log, session, CmdAccepted(|sp.cmds|)))
  }

  /** applyCommandInTx on a queued command: the event's number is the applied sequence. */
  function ApplyQueued(sp: Spine, i: nat, session: nat): Spine
    requires i < |sp.cmds|
  {
    sp.(cmds := sp.cmds[i := sp.cmds[i].(state := Applied, applied := Some(Last(sp.log, session) + 1))],
        log := Append(sp.log, session, CmdApplied(i)))
  }

  function RejectQueued(sp: Spine, i: nat, session: nat): Spine
    requires i < |sp.cmds|
  {
    sp.(cmds := sp.cmds[i := sp.cmds[i].(state := Rejected)],
        log := Append(sp.log, session, CmdRejected(i)))
  }

  function ExpireEach(cmds: seq<Cmd>, gone: seq<bool>): (out: seq<Cmd>)
    requires |gone| == |cmds|
    ensures |out| == |cmds|
  {
    seq(|cmds|, i requires 0 <= i < |cmds| => if gone[i] then cmds[i].(state := Expired) else cmds[i])
  }

  function ExpiryEvents(gone: seq<bool>): seq<Body> {
    if gone == [] then []
    else
      var n := |gone| - 1;
      if gone[n] then ExpiryEvents(gone[..n]) + [CmdExpired(n)] else ExpiryEvents(gone[..n])
  }

  /** Both sweeps: expire the rows flagged, then journal one event for each. */
  function ExpireAll(sp: Spine, session: nat, gone: seq<bool>): Spine
    requires |gone| == |sp.cmds|
  {
    sp.(cmds := ExpireEach(sp.cmds, gone), log := AppendAll(sp.log, session, ExpiryEvents(gone)))
  }

  predicate ExpiresWith(c: Cmd, r: nat, to: RunState) {
    c.state.InQueue? && c.run == Some(r) && !c.kind.ChangeConfig? && (!c.kind.SendMessage? || !to.Completed?)
  }

  function GoneWithRun(cmds: seq<Cmd>, r: nat, to: RunState): (gone: seq<bool>)
    ensures |gone| == |cmds|
  {
    seq(|cmds|, i requires 0 <= i < |cmds| => ExpiresWith(cmds[i], r, to))
  }

  /** How many send_messages a completed run leaves queued; each is warned about. */
  function Surviving(cmds: seq<Cmd>, r: nat): nat {
    if cmds == [] then 0
    else
      var c := cmds[|cmds| - 1];
      Surviving(cmds[..|cmds| - 1], r) + One(c.state.InQueue? && c.run == Some(r) && c.kind.SendMessage?)
  }

  function Warnings(n: nat): seq<Body> {
    seq(n, _ => Noted)
  }

  /** sweepQueuedCommands. */
  function SweepRun(sp: Spine, r: nat, to: RunState, session: nat): Spine {
    var swept := ExpireAll(sp, session, GoneWithRun(sp.cmds, r, to));
    if to.Completed?
    then swept.(log := AppendAll(swept.log, session, Warnings(Surviving(swept.cmds, r))))
    else swept
  }

  function Moved(sp: Spine, r: nat, to: RunState, cause: Option<Cause>): Spine
    requires r in sp.runs
  {
    sp.(runs := sp.runs[r := sp.runs[r].(state := to, cause := if to.Waiting? then cause else None)],
        log := Append(sp.log, sp.runs[r].session, RunMoved(r, to)))
  }

  predicate Legal(sp: Spine, r: nat, c: RunCommand) {
    r in sp.runs && Next(sp.runs[r].state, c).Some?
  }

  /** applyRunTransitionTx, where the table allows the command. */
  function Transit(sp: Spine, r: nat, c: RunCommand, cause: Option<Cause>): Spine
    requires Legal(sp, r, c)
  {
    var to := Next(sp.runs[r].state, c).value;
    if Terminal(to) then SweepRun(Moved(sp, r, to, cause), r, to, sp.runs[r].session)
    else Moved(sp, r, to, cause)
  }

  /** wakeParkedRunTx: resume and enqueue together, and only a run that is waiting. */
  function WakeParked(sp: Spine, r: nat): Spine {
    if r in sp.runs && sp.runs[r].state.Waiting?
    then var woken := Transit(sp, r, Resume, None); woken.(jobs := woken.jobs + [r])
    else sp
  }

  // --- the invariant of commands and journal -------------------------------------------------

  function One(b: bool): nat {
    if b then 1 else 0
  }

  ghost predicate AppliedAt(events: seq<Event<Body>>, i: nat, n: nat) {
    exists k :: 0 <= k < |events| && events[k].body == CmdApplied(i) && events[k].seqno == n
  }

  /** How often the journal says each thing of a command: accepted, applied, rejected, expired. */
  datatype Life = Life(accepted: nat, applied: nat, rejected: nat, expired: nat)

  function LifeOf(told: multiset<Body>, i: nat): Life {
    Life(told[CmdAccepted(i)], told[CmdApplied(i)], told[CmdRejected(i)], told[CmdExpired(i)])
  }

  /** Accepted once, and one end or none: the one its row records. */
  function LifeDue(c: Cmd): Life {
    Life(1, One(c.state.Applied?), One(c.state.Rejected?), One(c.state.Expired?))
  }

  predicate LifeTold(told: multiset<Body>, i: nat, c: Cmd) {
    LifeOf(told, i) == LifeDue(c) && (c.applied.Some? <==> c.state.Applied?)
  }

  ghost predicate LivesTold(cmds: seq<Cmd>, told: multiset<Body>) {
    && (forall i :: 0 <= i < |cmds| ==> LifeTold(told, i, cmds[i]))
    && (forall i: nat :: i >= |cmds| ==> LifeOf(told, i) == Life(0, 0, 0, 0))
  }

  ghost predicate AppliedTrue(cmds: seq<Cmd>, events: seq<Event<Body>>) {
    forall i :: 0 <= i < |cmds| && cmds[i].applied.Some? ==> AppliedAt(events, i, cmds[i].applied.value)
  }

  predicate UniqueIds(cmds: seq<Cmd>) {
    forall i, j :: 0 <= i < j < |cmds| ==> cmds[i].id != cmds[j].id
  }

  ghost predicate Journaled(sp: Spine) {
    && Numbered(sp.log)
    && LivesTold(sp.cmds, Told(sp.log.events))
    && AppliedTrue(sp.cmds, sp.log.events)
    && UniqueIds(sp.cmds)
  }

  lemma AppliedAtStays(a: seq<Event<Body>>, b: seq<Event<Body>>, cmds: seq<Cmd>)
    requires a <= b && AppliedTrue(cmds, a)
    ensures AppliedTrue(cmds, b)
  {
    forall i | 0 <= i < |cmds| && cmds[i].applied.Some? ensures AppliedAt(b, i, cmds[i].applied.value) {
      var k :| 0 <= k < |a| && a[k].body == CmdApplied(i) && a[k].seqno == cmds[i].applied.value;
      assert b[k] == a[k];
    }
  }

  /** One more event moves the life of the command it names and no other. */
  lemma OneMore(told: multiset<Body>, b: Body, i: nat)
    ensures var was, now := LifeOf(told, i), LifeOf(told + multiset{b}, i);
      now == Life(was.accepted + One(b == CmdAccepted(i)), was.applied + One(b == CmdApplied(i)),
                  was.rejected + One(b == CmdRejected(i)), was.expired + One(b == CmdExpired(i)))
  {
  }

  lemma TellLives(cmds: seq<Cmd>, told: multiset<Body>, body: Body)
    requires LivesTold(cmds, told) && !CommandBody(body)
    ensures LivesTold(cmds, told + multiset{body})
  {
    forall i: nat ensures LifeOf(told + multiset{body}, i) == LifeOf(told, i) { OneMore(told, body, i); }
  }

  lemma AddLives(cmds: seq<Cmd>, told: multiset<Body>, c: Cmd)
    requires LivesTold(cmds, told) && c.state.InQueue? && c.applied.None?
    ensures LivesTold(cmds + [c], told + multiset{CmdAccepted(|cmds|)})
  {
    var body := CmdAccepted(|cmds|);
    forall i: nat ensures i != |cmds| ==> LifeOf(told + multiset{body}, i) == LifeOf(told, i)
      { OneMore(told, body, i); }
    OneMore(told, body, |cmds|);
  }

  /** A queued command takes the end that one event tells. */
  lemma EndLives(cmds: seq<Cmd>, told: multiset<Body>, i: nat, c: Cmd, body: Body)
    requires LivesTold(cmds, told) && i < |cmds| && cmds[i].state.InQueue?
    requires (body == CmdApplied(i) && c.state.Applied? && c.applied.Some?)
             || (body == CmdRejected(i) && c.state.Rejected? && c.applied.None?)
    ensures LivesTold(cmds[i := c], told + multiset{body})
  {
    forall k: nat ensures k != i ==> LifeOf(told + multiset{body}, k) == LifeOf(told, k) { OneMore(told, body, k); }
    OneMore(told, body, i);
    assert LifeTold(told, i, cmds[i]);
  }

  lemma TellJournaled(sp: Spine, session: nat, body: Body)
    requires Journaled(sp) && !CommandBody(body)
    ensures Journaled(Tell(sp, session, body))
  {
    AppendNumbered(sp.log, session, body);
    ToldAppend(sp.log, session, body);
    TellLives(sp.cmds, Told(sp.log.events), body);
    AppliedAtStays(sp.log.events, Append(sp.log, session, body).events, sp.cmds);
  }

  lemma AddJournaled(sp: Spine, id: nat, session: nat, run: Option<nat>, kind: Kind)
    requires Journaled(sp) && forall i :: 0 <= i < |sp.cmds| ==> sp.cmds[i].id != id
    ensures Journaled(AddCommand(sp, id, session, run, kind))
  {
    var n := |sp.cmds|;
    AppendNumbered(sp.log, session, CmdAccepted(n));
    ToldAppend(sp.log, session, CmdAccepted(n));
    var c := Cmd(id, session, run, kind, InQueue, None);
    AddLives(sp.cmds, Told(sp.log.events), c);
    AppliedAtStays(sp.log.events, Append(sp.log, session, CmdAccepted(n)).events, sp.cmds);
    AddApplied(sp.cmds, c, Append(sp.log, session, CmdAccepted(n)).events);
  }

  lemma AddApplied(cmds: seq<Cmd>, c: Cmd, events: seq<Event<Body>>)
    requires AppliedTrue(cmds, events) && c.applied.None?
    requires UniqueIds(cmds) && forall i :: 0 <= i < |cmds| ==> cmds[i].id != c.id
    ensures AppliedTrue(cmds + [c], events) && UniqueIds(cmds + [c])
  {
  }

  lemma AppliedHere(cmds: seq<Cmd>, events: seq<Event<Body>>, i: nat, c: Cmd, e: Event<Body>)
    requires i < |cmds| && AppliedTrue(cmds, events) && UniqueIds(cmds)
    requires c.id == cmds[i].id && c.applied == Some(e.seqno) && e.body == CmdApplied(i)
    ensures AppliedTrue(cmds[i := c], events + [e]) && UniqueIds(cmds[i := c])
  {
    AppliedAtStays(events, events + [e], cmds);
    assert (events + [e])[|events|] == e;
  }

  /** An applied command's sequence is the number of the event that says so. */
  lemma ApplyJournaled(sp: Spine, i: nat, session: nat)
    requires Journaled(sp) && i < |sp.cmds| && sp.cmds[i].state.InQueue?
    ensures Journaled(ApplyQueued(sp, i, session))
  {
    var out := ApplyQueued(sp, i, session);
    AppendNumbered(sp.log, session, CmdApplied(i));
    ToldAppend(sp.log, session, CmdApplied(i));
    EndLives(sp.cmds, Told(sp.log.events), i, out.cmds[i], CmdApplied(i));
    AppliedHere(sp.cmds, sp.log.events, i, out.cmds[i], Event(session, Last(sp.log, session) + 1, CmdApplied(i)));
  }

  lemma RejectJournaled(sp: Spine, i: nat, session: nat)
    requires Journaled(sp) && i < |sp.cmds| && sp.cmds[i].state.InQueue?
    ensures Journaled(RejectQueued(sp, i, session))
  {
    assert LifeTold(Told(sp.log.events), i, sp.cmds[i]);
    AppendNumbered(sp.log, session, CmdRejected(i));
    ToldAppend(sp.log, session, CmdRejected(i));
    EndLives(sp.cmds, Told(sp.log.events), i, RejectQueued(sp, i, session).cmds[i], CmdRejected(i));
    AppliedAtStays(sp.log.events, RejectQueued(sp, i, session).log.events, sp.cmds);
  }

  /** The expiry events as a bag: one for each row that goes. */
  function ExpiryTold(gone: seq<bool>): multiset<Body> {
    if gone == [] then multiset{}
    else
      var n := |gone| - 1;
      if gone[n] then ExpiryTold(gone[..n]) + multiset{CmdExpired(n)} else ExpiryTold(gone[..n])
  }

  lemma {:induction false} ExpiryBag(gone: seq<bool>)
    ensures multiset(ExpiryEvents(gone)) == ExpiryTold(gone)
  {
    if gone != [] {
      var n := |gone| - 1;
      var before := ExpiryEvents(gone[..n]);
      ExpiryBag(gone[..n]);
      if gone[n] {
        assert multiset(before + [CmdExpired(n)]) == multiset(before) + multiset{CmdExpired(n)};
      }
    }
  }

  lemma {:induction false} ExpiryCounts(gone: seq<bool>, i: nat)
    ensures LifeOf(ExpiryTold(gone), i) == Life(0, 0, 0, One(i < |gone| && gone[i]))
  {
    if gone != [] {
      var n := |gone| - 1;
      ExpiryCounts(gone[..n], i);
      OneMore(ExpiryTold(gone[..n]), CmdExpired(n), i);
    }
  }

  lemma LifeAdds(a: multiset<Body>, b: multiset<Body>, i: nat)
    ensures LifeOf(a + b, i).accepted == LifeOf(a, i).accepted + LifeOf(b, i).accepted
    ensures LifeOf(a + b, i).applied == LifeOf(a, i).applied + LifeOf(b, i).applied
    ensures LifeOf(a + b, i).rejected == LifeOf(a, i).rejected + LifeOf(b, i).rejected
    ensures LifeOf(a + b, i).expired == LifeOf(a, i).expired + LifeOf(b, i).expired
  {
  }

  predicate AllQueued(cmds: seq<Cmd>, gone: seq<bool>) {
    |gone| == |cmds| && forall i :: 0 <= i < |gone| && gone[i] ==> cmds[i].state.InQueue?
  }

  lemma ExpireLives(cmds: seq<Cmd>, gone: seq<bool>, told: multiset<Body>)
    requires LivesTold(cmds, told) && AllQueued(cmds, gone)
    ensures LivesTold(ExpireEach(cmds, gone), told + multiset(ExpiryEvents(gone)))
  {
    ExpiryBag(gone);
    var more, out := ExpiryTold(gone), ExpireEach(cmds, gone);
    forall i: nat
      ensures i < |cmds| ==> LifeTold(told + more, i, out[i])
      ensures i >= |cmds| ==> LifeOf(told + more, i) == Life(0, 0, 0, 0) {
      ExpiryCounts(gone, i);
      LifeAdds(told, more, i);
      if i < |cmds| { assert LifeTold(told, i, cmds[i]); }
    }
  }

  lemma ExpireApplied(cmds: seq<Cmd>, gone: seq<bool>, events: seq<Event<Body>>)
    requires |gone| == |cmds| && AppliedTrue(cmds, events) && UniqueIds(cmds)
    ensures AppliedTrue(ExpireEach(cmds, gone), events) && UniqueIds(ExpireEach(cmds, gone))
  {
  }

  lemma ExpireJournaled(sp: Spine, session: nat, gone: seq<bool>)
    requires Journaled(sp) && AllQueued(sp.cmds, gone)
    ensures Journaled(ExpireAll(sp, session, gone))
  {
    var bodies := ExpiryEvents(gone);
    AppendAllNumbered(sp.log, session, bodies);
    ToldAppendAll(sp.log, session, bodies);
    AppendAllKeeps(sp.log, session, bodies);
    ExpireLives(sp.cmds, gone, Told(sp.log.events));
    AppliedAtStays(sp.log.events, AppendAll(sp.log, session, bodies).events, sp.cmds);
    ExpireApplied(sp.cmds, gone, AppendAll(sp.log, session, bodies).events);
  }

  lemma {:induction false} WarnJournaled(sp: Spine, session: nat, n: nat)
    requires Journaled(sp)
    ensures Journaled(sp.(log := AppendAll(sp.log, session, Warnings(n))))
  {
    if n > 0 {
      WarnJournaled(sp, session, n - 1);
      assert Warnings(n)[..n - 1] == Warnings(n - 1);
      TellJournaled(sp.(log := AppendAll(sp.log, session, Warnings(n - 1))), session, Noted);
    }
  }

  lemma SweepJournaled(sp: Spine, r: nat, to: RunState, session: nat)
    requires Journaled(sp)
    ensures Journaled(SweepRun(sp, r, to, session))
  {
    ExpireJournaled(sp, session, GoneWithRun(sp.cmds, r, to));
    var swept := ExpireAll(sp, session, GoneWithRun(sp.cmds, r, to));
    WarnJournaled(swept, session, Surviving(swept.cmds, r));
  }

  lemma TransitJournaled(sp: Spine, r: nat, c: RunCommand, cause: Option<Cause>)
    requires Journaled(sp) && Legal(sp, r, c)
    ensures Journaled(Transit(sp, r, c, cause))
  {
    var to := Next(sp.runs[r].state, c).value;
    TellJournaled(sp, sp.runs[r].session, RunMoved(r, to));
    assert Journaled(Moved(sp, r, to, cause));
    SweepJournaled(Moved(sp, r, to, cause), r, to, sp.runs[r].session);
  }

  lemma WakeJournaled(sp: Spine, r: nat)
    requires Journaled(sp)
    ensures Journaled(WakeParked(sp, r))
  {
    if r in sp.runs && sp.runs[r].state.Waiting? { TransitJournaled(sp, r, Resume, None); }
  }
}
