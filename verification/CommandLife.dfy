/** What becomes of a command over every run of the protocol (packages/coordinator/commands.go:87-204,
    555-654, 777-822). */
module CommandLife {
  import opened Base
  import opened RunTable
  import opened Journal
  import opened Spine
  import opened Commands

  // --- an end is final -----------------------------------------------------------------------

  /** A step leaves a command as it was, or takes it out of the queue. */
  predicate Follows(was: Cmd, now: Cmd) {
    now == was || (was.state.InQueue? && !now.state.InQueue?
                   && now.id == was.id && now.session == was.session && now.run == was.run && now.kind == was.kind)
  }

  predicate AllFollow(was: seq<Cmd>, now: seq<Cmd>) {
    |was| <= |now| && forall i :: 0 <= i < |was| ==> Follows(was[i], now[i])
  }

  lemma FollowChain(a: seq<Cmd>, b: seq<Cmd>, c: seq<Cmd>)
    requires AllFollow(a, b) && AllFollow(b, c)
    ensures AllFollow(a, c)
  {
    forall i | 0 <= i < |a| ensures Follows(a[i], c[i]) { assert Follows(a[i], b[i]) && Follows(b[i], c[i]); }
  }

  lemma SweepFollows(sp: Spine, r: nat, to: RunState, session: nat)
    ensures AllFollow(sp.cmds, SweepRun(sp, r, to, session).cmds)
    ensures |SweepRun(sp, r, to, session).cmds| == |sp.cmds|
  {
  }

  lemma TransitFollows(sp: Spine, r: nat, c: RunCommand, cause: Option<Cause>)
    requires Legal(sp, r, c)
    ensures AllFollow(sp.cmds, Transit(sp, r, c, cause).cmds)
    ensures !Terminal(Next(sp.runs[r].state, c).value) ==> Transit(sp, r, c, cause).cmds == sp.cmds
  {
    SweepFollows(Moved(sp, r, Next(sp.runs[r].state, c).value, cause),
                 r, Next(sp.runs[r].state, c).value, sp.runs[r].session);
  }

  lemma WakeFollows(sp: Spine, r: nat)
    ensures WakeParked(sp, r).cmds == sp.cmds
  {
  }

  lemma CloseFollows(sp: Spine, session: nat, i: nat, run: Option<nat>)
    ensures AllFollow(sp.cmds, CloseSweep(sp, session, i, run).cmds)
    ensures |CloseSweep(sp, session, i, run).cmds| == |sp.cmds|
  {
  }

  lemma SettleFollows(sp: Spine, i: nat, session: nat, kind: Kind, run: Option<nat>, child: nat)
    requires Pending(sp, i)
    ensures AllFollow(sp.cmds, Settled(sp, i, session, kind, run, child).cmds)
    ensures |Settled(sp, i, session, kind, run, child).cmds| == |sp.cmds|
    ensures !Settled(sp, i, session, kind, run, child).cmds[i].state.InQueue?
  {
    CloseFollows(sp, session, i, run);
    CloseKeepsQueued(sp, session, i, run);
    if run.Some? { WakeFollows(sp, run.value); }
  }

  lemma DecideFollows(sp: Spine, i: nat, session: nat, kind: Kind, seen: Seen, child: nat)
    requires Pending(sp, i)
    ensures AllFollow(sp.cmds, Decided(sp, i, session, kind, seen, child).cmds)
    ensures |Decided(sp, i, session, kind, seen, child).cmds| == |sp.cmds|
    ensures Decided(sp, i, session, kind, seen, child).cmds[i].state.InQueue?
            <==> !Turned(kind, seen) && !Immediate(kind)
  {
    if !Turned(kind, seen) && Immediate(kind) { SettleFollows(sp, i, session, kind, seen.run, child); }
  }

  lemma AcceptFollows(sp: Spine, session: nat, id: nat, kind: Kind, seen: Seen, child: nat)
    ensures AllFollow(sp.cmds, Accepted(sp, session, id, kind, seen, child).cmds)
  {
    if session in sp.sessions && !HasId(sp.cmds, id) {
      var added := AddCommand(sp, id, session, seen.run, kind);
      DecideFollows(added, |sp.cmds|, session, kind, seen, child);
      assert AllFollow(sp.cmds, added.cmds);
      FollowChain(sp.cmds, added.cmds, Accepted(sp, session, id, kind, seen, child).cmds);
    }
  }

  lemma PauseFollows(sp: Spine, r: nat, i: nat)
    ensures AllFollow(sp.cmds, PausedBy(sp, r, i).cmds)
  {
    if Legal(sp, r, Wait) && Pending(sp, i) { TransitFollows(sp, r, Wait, Some(ForPause)); }
  }

  lemma StepFollows(sp: Spine, a: Action)
    requires Can(sp, a) && !a.Carry?
    ensures AllFollow(sp.cmds, Do(sp, a).cmds)
  {
    match a
    case Accept(session, id, kind, seen, child) => AcceptFollows(sp, session, id, kind, seen, child);
    case Pause(r, i) => PauseFollows(sp, r, i);
    case Drive(r, c, cause) => TransitFollows(sp, r, c, cause);
    case WakeUp(r) => WakeFollows(sp, r);
    case WakeForCapacity(r) => WakeFollows(sp, r);
    case ParkForCapacity(r) => TransitFollows(sp, r, Wait, Some(ForCapacity));
    case Notify(r, id, task) =>
      WakeFollows(AddCommand(sp, id, sp.runs[r].session, Some(r), BackgroundNotice(task)), r);
    case _ =>
  }

  /** Applied, rejected or expired: whichever a command reaches, no step ever moves it again, and no step
      changes what it is. */
  lemma EndIsFinal(sp: Spine, a: Action, i: nat)
    requires Can(sp, a) && i < |sp.cmds|
    ensures i < |Do(sp, a).cmds|
    ensures !sp.cmds[i].state.InQueue? ==> Do(sp, a).cmds[i] == sp.cmds[i]
    ensures var was, now := sp.cmds[i], Do(sp, a).cmds[i];
      now.id == was.id && now.kind == was.kind && now.session == was.session
  {
    if !a.Carry? {
      StepFollows(sp, a);
      assert Follows(sp.cmds[i], Do(sp, a).cmds[i]);
    }
  }

  /** An id already taken: the command is answered and nothing at all changes. */
  lemma DuplicateChangesNothing(sp: Spine, session: nat, id: nat, kind: Kind, seen: Seen, child: nat)
    requires Can(sp, Accept(session, id, kind, seen, child)) && HasId(sp.cmds, id)
    ensures Do(sp, Accept(session, id, kind, seen, child)) == sp
  {
  }

  // --- what a terminal run leaves queued -----------------------------------------------------

  predicate MayOutlive(kind: Kind, state: RunState) {
    kind.ChangeConfig? || (kind.SendMessage? && state.Completed?)
  }

  predicate Clean(runs: map<nat, Run>, c: Cmd) {
    (c.state.InQueue? && c.run.Some? && c.run.value in runs && Terminal(runs[c.run.value].state))
    ==> MayOutlive(c.kind, runs[c.run.value].state)
  }

  /** Nothing is queued on a terminal run but change_config, and send_message where it completed. */
  predicate NothingStranded(sp: Spine) {
    forall i :: 0 <= i < |sp.cmds| ==> Clean(sp.runs, sp.cmds[i])
  }

  /** The two steps that can strand a command: accepting one for a run read as active that has since
      ended, and carrying messages to a run that has itself ended other than by completing. */
  predicate Strands(sp: Spine, a: Action) {
    match a
    case Accept(session, id, kind, seen, child) =>
      session in sp.sessions && !HasId(sp.cmds, id) && !Turned(kind, seen) && !Immediate(kind)
      && seen.run.Some? && seen.run.value in sp.runs && Terminal(sp.runs[seen.run.value].state)
      && !MayOutlive(kind, sp.runs[seen.run.value].state)
    case Carry(session, r) =>
      r in sp.runs && Terminal(sp.runs[r].state) && !sp.runs[r].state.Completed?
      && exists i :: 0 <= i < |sp.cmds| && Carries(sp.runs, sp.cmds[i], session, r)
    case _ => false
  }

  /** Runs move only by the table: a terminal run stays as it is, and only Drive makes one. */
  lemma RunsByTable(sp: Spine, a: Action, r: nat)
    requires Can(sp, a)
    ensures r in sp.runs ==> r in RunsAfter(sp, a)
    ensures r in sp.runs && Terminal(sp.runs[r].state) ==> RunsAfter(sp, a)[r] == sp.runs[r]
    ensures r in sp.runs && Terminal(RunsAfter(sp, a)[r].state) && !Terminal(sp.runs[r].state) ==> a.Drive? && a.r == r
    ensures r !in sp.runs && r in RunsAfter(sp, a) ==> !Terminal(RunsAfter(sp, a)[r].state)
  {
  }

  lemma StepRuns(sp: Spine, a: Action, r: nat)
    requires Can(sp, a)
    ensures r in sp.runs ==> r in Do(sp, a).runs
    ensures r in sp.runs && Terminal(sp.runs[r].state) ==> Do(sp, a).runs[r] == sp.runs[r]
    ensures r in sp.runs && Terminal(Do(sp, a).runs[r].state) && !Terminal(sp.runs[r].state) ==> a.Drive? && a.r == r
    ensures r !in sp.runs && r in Do(sp, a).runs ==> !Terminal(Do(sp, a).runs[r].state)
  {
    StepEffect(sp, a);
    RunsByTable(sp, a, r);
  }

  lemma TransitClean(sp: Spine, r: nat, c: RunCommand, cause: Option<Cause>, i: nat)
    requires Legal(sp, r, c) && i < |sp.cmds| && Clean(sp.runs, sp.cmds[i])
    ensures i < |Transit(sp, r, c, cause).cmds|
            && Clean(Transit(sp, r, c, cause).runs, Transit(sp, r, c, cause).cmds[i])
  {
    var to := Next(sp.runs[r].state, c).value;
    TransitFollows(sp, r, c, cause);
    if Terminal(to) {
      assert GoneWithRun(sp.cmds, r, to)[i] <==> ExpiresWith(sp.cmds[i], r, to);
    }
  }

  lemma StepKeepsClean(sp: Spine, a: Action, i: nat)
    requires Can(sp, a) && !a.Carry? && i < |sp.cmds| && Clean(sp.runs, sp.cmds[i])
    ensures i < |Do(sp, a).cmds| && Clean(Do(sp, a).runs, Do(sp, a).cmds[i])
  {
    StepFollows(sp, a);
    assert Follows(sp.cmds[i], Do(sp, a).cmds[i]);
    if a.Drive? {
      TransitClean(sp, a.r, a.c, a.cause, i);
    } else if sp.cmds[i].run.Some? {
      var r := sp.cmds[i].run.value;
      StepRuns(sp, a, r);
    }
  }

  lemma AcceptNew(sp: Spine, session: nat, id: nat, kind: Kind, seen: Seen, child: nat)
    requires session in sp.sessions && !HasId(sp.cmds, id)
    ensures var out := Accepted(sp, session, id, kind, seen, child).cmds;
      && |out| == |sp.cmds| + 1
      && (out[|sp.cmds|].state.InQueue? <==> !Turned(kind, seen) && !Immediate(kind))
      && out[|sp.cmds|].run == seen.run && out[|sp.cmds|].kind == kind
  {
    var added := AddCommand(sp, id, session, seen.run, kind);
    DecideFollows(added, |sp.cmds|, session, kind, seen, child);
    assert Follows(added.cmds[|sp.cmds|], Accepted(sp, session, id, kind, seen, child).cmds[|sp.cmds|]);
  }

  lemma AcceptStrands(sp: Spine, session: nat, id: nat, kind: Kind, seen: Seen, child: nat)
    requires Can(sp, Accept(session, id, kind, seen, child)) && NothingStranded(sp)
    ensures NothingStranded(Do(sp, Accept(session, id, kind, seen, child)))
            <==> !Strands(sp, Accept(session, id, kind, seen, child))
  {
    var a := Accept(session, id, kind, seen, child);
    var out := Do(sp, a);
    forall i | 0 <= i < |sp.cmds| ensures i < |out.cmds| && Clean(out.runs, out.cmds[i]) { StepKeepsClean(sp, a, i); }
    if session in sp.sessions && !HasId(sp.cmds, id) {
      AcceptNew(sp, session, id, kind, seen, child);
      if seen.run.Some? { StepRuns(sp, a, seen.run.value); }
      assert Clean(out.runs, out.cmds[|sp.cmds|]) <==> !Strands(sp, a);
    }
  }

  lemma CarryStrands(sp: Spine, session: nat, r: nat)
    requires NothingStranded(sp)
    ensures NothingStranded(Do(sp, Carry(session, r))) <==> !Strands(sp, Carry(session, r))
  {
    var out := Carried(sp, session, r);
    forall i | 0 <= i < |sp.cmds|
      ensures Clean(out.runs, out.cmds[i])
              <==> !(Carries(sp.runs, sp.cmds[i], session, r) && r in sp.runs && Terminal(sp.runs[r].state)
                     && !sp.runs[r].state.Completed?) {
      assert Clean(sp.runs, sp.cmds[i]);
    }
  }

  /** One step: nothing is stranded after it exactly when the step is not one of the two. */
  lemma StrandedExactly(sp: Spine, a: Action)
    requires Can(sp, a) && NothingStranded(sp)
    ensures NothingStranded(Do(sp, a)) <==> !Strands(sp, a)
  {
    if a.Accept? {
      AcceptStrands(sp, a.session, a.id, a.kind, a.seen, a.child);
    } else if a.Carry? {
      CarryStrands(sp, a.session, a.r);
    } else {
      var out := Do(sp, a);
      forall i | 0 <= i < |sp.cmds| ensures i < |out.cmds| && Clean(out.runs, out.cmds[i]) { StepKeepsClean(sp, a, i); }
      if a.Notify? { assert Live(sp, a.r); }
    }
  }

  /** Both happen. A pause is read against a live run, the run is canceled, and the pause is accepted. */
  lemma AcceptRaces(sp: Spine, session: nat, id: nat, r: nat, child: nat)
    requires Live(sp, r) && session in sp.sessions && child !in sp.sessions && !HasId(sp.cmds, id)
    ensures var ended := Do(sp, Drive(r, Cancel, None));
      var ask := Accept(session, id, PauseRun, Seen(true, Some(r), false, false), child);
      Can(ended, ask) && Strands(ended, ask)
  {
    StepEffect(sp, Drive(r, Cancel, None));
    var ended := Do(sp, Drive(r, Cancel, None));
    TransitFollows(sp, r, Cancel, None);
    SameIds(sp, r, id);
  }

  lemma SameIds(sp: Spine, r: nat, id: nat)
    requires Live(sp, r) && !HasId(sp.cmds, id)
    ensures !HasId(Do(sp, Drive(r, Cancel, None)).cmds, id)
    ensures Do(sp, Drive(r, Cancel, None)).sessions == sp.sessions
  {
  }

  /** A message outlives its completed run, and the next run is canceled before the message is carried to it. */
  lemma CarryRaces(sp: Spine, session: nat, r: nat, i: nat)
    requires Live(sp, r) && i < |sp.cmds| && Carries(sp.runs, sp.cmds[i], session, r)
    ensures var ended := Do(sp, Drive(r, Cancel, None));
      Can(ended, Carry(session, r)) && Strands(ended, Carry(session, r))
  {
    var ended := Do(sp, Drive(r, Cancel, None));
    StepEffect(sp, Drive(r, Cancel, None));
    TransitFollows(sp, r, Cancel, None);
    assert !GoneWithRun(sp.cmds, r, Canceled)[i];
    assert ended.cmds[i] == sp.cmds[i];
    assert Carries(ended.runs, ended.cmds[i], session, r);
  }

  // --- every run -----------------------------------------------------------------------------

  predicate Start(sp: Spine) {
    sp.runs == map[] && sp.jobs == [] && sp.marked == {} && sp.cmds == [] && sp.log == Log([], map[])
  }

  ghost predicate Run(trace: seq<Spine>, actions: seq<Action>) {
    |trace| == |actions| + 1 && Start(trace[0])
    && forall k :: 0 <= k < |actions| ==> Can(trace[k], actions[k]) && trace[k + 1] == Do(trace[k], actions[k])
  }

  lemma {:induction false} RunJournaled(trace: seq<Spine>, actions: seq<Action>, k: nat)
    requires Run(trace, actions) && k < |trace|
    ensures Journaled(trace[k])
  {
    if k > 0 {
      RunJournaled(trace, actions, k - 1);
      StepJournaled(trace[k - 1], actions[k - 1]);
    }
  }

  /** In every state of every run: session numbers leave no gap, each command was accepted once and has at
      most one end, and an applied command's sequence is the number of its only applied event. */
  lemma CommandLifecycle(trace: seq<Spine>, actions: seq<Action>, k: nat, i: nat)
    requires Run(trace, actions) && k < |trace| && i < |trace[k].cmds|
    ensures var sp := trace[k]; var told := Told(sp.log.events);
      && Numbered(sp.log)
      && told[CmdAccepted(i)] == 1
      && told[CmdApplied(i)] + told[CmdRejected(i)] + told[CmdExpired(i)] == One(!sp.cmds[i].state.InQueue?)
      && (sp.cmds[i].state.Applied? <==> told[CmdApplied(i)] == 1)
      && (sp.cmds[i].state.Applied? ==>
           sp.cmds[i].applied.Some? && AppliedAt(sp.log.events, i, sp.cmds[i].applied.value))
  {
    RunJournaled(trace, actions, k);
    assert LifeTold(Told(trace[k].log.events), i, trace[k].cmds[i]);
  }

  predicate Persist(was: seq<Cmd>, now: seq<Cmd>) {
    |was| <= |now| && forall i :: 0 <= i < |was| && !was[i].state.InQueue? ==> now[i] == was[i]
  }

  lemma StepPersists(sp: Spine, a: Action)
    requires Can(sp, a)
    ensures Persist(sp.cmds, Do(sp, a).cmds)
  {
    if !a.Carry? { StepFollows(sp, a); }
  }

  function Tables(trace: seq<Spine>): (out: seq<seq<Cmd>>)
    ensures |out| == |trace| && forall k :: 0 <= k < |trace| ==> out[k] == trace[k].cmds
  {
    seq(|trace|, k requires 0 <= k < |trace| => trace[k].cmds)
  }

  lemma {:induction false} PersistChain(tables: seq<seq<Cmd>>, j: nat, k: nat)
    requires j <= k < |tables|
    requires forall n, m :: 0 <= n && m == n + 1 && m < |tables| ==> Persist(tables[n], tables[m])
    ensures Persist(tables[j], tables[k])
  {
    if j < k {
      PersistChain(tables, j, k - 1);
      assert Persist(tables[k - 1], tables[k]);
    }
  }

  /** Once a command has its end, every later state of the run shows the same row. */
  lemma EndsStay(trace: seq<Spine>, actions: seq<Action>, j: nat, k: nat, i: nat)
    requires Run(trace, actions) && j <= k < |trace| && i < |trace[j].cmds| && !trace[j].cmds[i].state.InQueue?
    ensures i < |trace[k].cmds| && trace[k].cmds[i] == trace[j].cmds[i]
  {
    var tables := Tables(trace);
    forall n, m | 0 <= n && m == n + 1 && m < |tables| ensures Persist(tables[n], tables[m]) {
      StepPersists(trace[n], actions[n]);
    }
    PersistChain(tables, j, k);
  }

  /** Nothing is stranded in any state of a run none of whose steps strands. */
  lemma {:induction false} NeverStranded(trace: seq<Spine>, actions: seq<Action>, k: nat)
    requires Run(trace, actions) && k < |trace|
    requires forall j :: 0 <= j < k ==> !Strands(trace[j], actions[j])
    ensures NothingStranded(trace[k])
  {
    if k > 0 {
      NeverStranded(trace, actions, k - 1);
      StrandedExactly(trace[k - 1], actions[k - 1]);
    }
  }
}
