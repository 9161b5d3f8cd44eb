/** HoldMachine (packages/coordinator/occupancy_billing.go:143-162): read the session's open hold, then keep
    it alive, or close it as lost and acquire, or just acquire. The workspace writer lease lets one call
    per session run at a time; reapers settle and other sessions place in between its steps. */
module Holds {
  import opened Base
  import opened Books
  import opened Fleet

  datatype Pc =
    | Touching(i: nat)
    | Leaving(i: nat, m: nat)
    | Acquiring(m: nat)
    | Placing(m: nat)

  datatype Hold = Hold(project: nat, pc: Pc)

  /** holds is keyed by session: at most one call in flight for each. */
  datatype Desk = Desk(fleet: Fleet, holds: map<nat, Hold>)

  predicate OpenFor(l: Lease, session: nat, project: nat) {
    Open(l) && l.session == session && l.project == project
  }

  /** OpenOccupancy: the last open hold of the session, if any. */
  function LastOpen(leases: seq<Lease>, session: nat, project: nat): (found: Option<nat>)
    ensures found.Some? ==> found.value < |leases| && OpenFor(leases[found.value], session, project)
    ensures forall i :: 0 <= i < |leases| && OpenFor(leases[i], session, project) ==> found.Some? && i <= found.value
  {
    if leases == [] then None
    else if OpenFor(leases[|leases| - 1], session, project) then Some(|leases| - 1)
    else LastOpen(leases[..|leases| - 1], session, project)
  }

  function Start(leases: seq<Lease>, session: nat, project: nat, m: nat): Pc {
    match LastOpen(leases, session, project)
    case None => Acquiring(m)
    case Some(i) => if leases[i].machine == m then Touching(i) else Leaving(i, m)
  }

  // --- steps ---------------------------------------------------------------------------------

  datatype Move =
    | Begin(session: nat, project: nat, m: nat)
    | Keep(session: nat)
    | Leave(session: nat)
    | Place(session: nat)
    | GiveUp(session: nat)
    | World(a: Action)

  predicate EndsTxn(f: Fleet, a: Action)
    requires Can(f, a)
  {
    (a.Insert? || a.AskHeld? || a.AskOpen? || a.Commit? || a.Abort?) && a.m in f.txns && a.m !in Do(f, a).txns
  }

  predicate May(d: Desk, v: Move) {
    match v
    case Begin(session, _, _) => session !in d.holds
    case Keep(session) => session in d.holds && d.holds[session].pc.Touching?
    case Leave(session) => session in d.holds && d.holds[session].pc.Leaving?
    case Place(session) =>
      session in d.holds && d.holds[session].pc.Acquiring?
      && Can(d.fleet, Lock(d.holds[session].pc.m, d.holds[session].project, session))
    case GiveUp(session) => session in d.holds && !d.holds[session].pc.Placing?
    case World(a) => !a.Lock? && Can(d.fleet, a)
  }

  function Moved(d: Desk, v: Move): Desk
    requires May(d, v)
  {
    match v
    case Begin(session, project, m) =>
      d.(holds := d.holds[session := Hold(project, Start(d.fleet.books.leases, session, project, m))])
    case Keep(session) =>
      var h := d.holds[session];
      Desk(Do(d.fleet, TouchHold(h.pc.i, h.project)), d.holds - {session})
    case Leave(session) =>
      var h := d.holds[session];
      Desk(Do(d.fleet, SettleHold(h.pc.i, h.project, Lost)),
           d.holds[session := h.(pc := Acquiring(h.pc.m))])
    case Place(session) =>
      var h := d.holds[session];
      Desk(Do(d.fleet, Lock(h.pc.m, h.project, session)), d.holds[session := h.(pc := Placing(h.pc.m))])
    case GiveUp(session) => d.(holds := d.holds - {session})
    case World(a) =>
      Desk(Do(d.fleet, a), if EndsTxn(d.fleet, a) then d.holds - {d.fleet.txns[a.m].session} else d.holds)
  }

  // --- invariant -----------------------------------------------------------------------------

  /** Of two holds of one session, the earlier is over before the later begins. */
  predicate Disjoint(leases: seq<Lease>) {
    forall i, j :: 0 <= i < j < |leases| && leases[i].session == leases[j].session ==> Before(leases[i], leases[j])
  }

  predicate AllBefore(leases: seq<Lease>, row: Lease) {
    forall i :: 0 <= i < |leases| && leases[i].session == row.session ==> Before(leases[i], row)
  }

  predicate TxnHeld(d: Desk, m: nat) {
    m in d.fleet.txns ==>
      var t := d.fleet.txns[m];
      && t.session in d.holds && d.holds[t.session] == Hold(t.project, Placing(m))
      && (t.phase.Wrote? ==> AllBefore(d.fleet.books.leases, t.phase.row))
  }

  predicate HoldSound(d: Desk, session: nat) {
    session in d.holds ==>
      var h, leases := d.holds[session], d.fleet.books.leases;
      match h.pc
      case Touching(_) => true
      case Leaving(i, _) => forall j :: 0 <= j < |leases| && OpenFor(leases[j], session, h.project) ==> j == i
      case Acquiring(_) => forall j :: 0 <= j < |leases| ==> !OpenFor(leases[j], session, h.project)
      case Placing(m) =>
        m in d.fleet.txns && d.fleet.txns[m].session == session
        && forall j :: 0 <= j < |leases| ==> !OpenFor(leases[j], session, h.project)
  }

  ghost predicate DeskInv(d: Desk) {
    && Inv(d.fleet)
    && Disjoint(d.fleet.books.leases)
    && (forall m :: m in d.fleet.txns ==> TxnHeld(d, m))
    && (forall s :: s in d.holds ==> HoldSound(d, s))
  }

  /** The action of the fleet a move performs; a move that performs none passes no time. */
  function Acts(d: Desk, v: Move): Action
    requires May(d, v)
  {
    match v
    case Begin(_, _, _) => Pass(0)
    case GiveUp(_) => Pass(0)
    case Keep(s) => TouchHold(d.holds[s].pc.i, d.holds[s].project)
    case Leave(s) => SettleHold(d.holds[s].pc.i, d.holds[s].project, Lost)
    case Place(s) => Lock(d.holds[s].pc.m, d.holds[s].project, s)
    case World(a) => a
  }

  lemma ActsIsStep(d: Desk, v: Move)
    requires May(d, v)
    ensures Can(d.fleet, Acts(d, v)) && Moved(d, v).fleet == Do(d.fleet, Acts(d, v))
  {
  }

  // --- preservation --------------------------------------------------------------------------

  /** A step that is not a commit leaves each row as it was, save that it may be touched or closed now. */
  lemma RowsEvolve(f: Fleet, a: Action, i: nat)
    requires Can(f, a) && i < |f.books.leases|
    ensures i < |Do(f, a).books.leases|
    ensures var l, k := f.books.leases[i], Do(f, a).books.leases[i];
      && k.project == l.project && k.session == l.session && k.machine == l.machine && k.started == l.started
      && (l.close.Some? ==> k == l) && (Open(k) ==> Open(l))
  {
  }

  lemma RowsSame(f: Fleet, a: Action)
    requires Can(f, a)
    ensures if a.Commit? then |Do(f, a).books.leases| == |f.books.leases| + 1
                              && Do(f, a).books.leases[|f.books.leases|] == f.txns[a.m].phase.row
            else |Do(f, a).books.leases| == |f.books.leases|
  {
  }

  lemma StepBefore(f: Fleet, a: Action, i: nat, row: Lease, row': Lease)
    requires Can(f, a) && i < |f.books.leases| && Before(f.books.leases[i], row) && row'.started == row.started
    ensures i < |Do(f, a).books.leases| && Before(Do(f, a).books.leases[i], row')
  {
    RowsEvolve(f, a, i);
  }

  lemma StepAllBefore(d: Desk, a: Action, row: Lease)
    requires DeskInv(d) && Can(d.fleet, a) && AllBefore(d.fleet.books.leases, row)
    requires a.Commit? ==> d.fleet.txns[a.m].session != row.session
    ensures AllBefore(Do(d.fleet, a).books.leases, row)
  {
    var f, later := d.fleet, Do(d.fleet, a).books.leases;
    RowsSame(f, a);
    if a.Commit? { assert TxnSound(f, a.m); }
    forall i | 0 <= i < |later| && later[i].session == row.session ensures Before(later[i], row) {
      if i < |f.books.leases| {
        RowsEvolve(f, a, i);
        StepBefore(f, a, i, row, row);
      }
    }
  }

  lemma StepDisjoint(d: Desk, a: Action)
    requires DeskInv(d) && Can(d.fleet, a)
    ensures Disjoint(Do(d.fleet, a).books.leases)
  {
    var f, later := d.fleet, Do(d.fleet, a).books.leases;
    RowsSame(f, a);
    if a.Commit? { assert TxnHeld(d, a.m) && TxnSound(f, a.m); }
    forall i, j | 0 <= i < j < |later| && later[i].session == later[j].session ensures Before(later[i], later[j]) {
      RowsEvolve(f, a, i);
      if j < |f.books.leases| {
        RowsEvolve(f, a, j);
        StepBefore(f, a, i, f.books.leases[j], later[j]);
      }
    }
  }

  /** Rows of a session with the right owner: closed rows are over by now. */
  lemma ClosedBeforeNow(f: Fleet, session: nat, project: nat, row: Lease)
    requires Inv(f) && SessionSeen(f.sessions, session, project)
    requires forall j :: 0 <= j < |f.books.leases| ==> !OpenFor(f.books.leases[j], session, project)
    requires row.session == session && row.started == f.books.clock
    ensures AllBefore(f.books.leases, row)
  {
    forall i | 0 <= i < |f.books.leases| && f.books.leases[i].session == session
      ensures Before(f.books.leases[i], row) {
      assert SessionSeen(f.sessions, f.books.leases[i].session, f.books.leases[i].project);
      assert Timely(f.books.leases[i], f.books.clock);
      assert !OpenFor(f.books.leases[i], session, project);
    }
  }

  predicate OwnedBy(holds: map<nat, Hold>, t: Txn, m: nat) {
    t.session in holds && holds[t.session] == Hold(t.project, Placing(m))
  }

  /** A step on one transaction leaves the owner of another alone, and a transaction keeps its own. */
  lemma WorldOwner(d: Desk, a: Action, m: nat)
    requires DeskInv(d) && May(d, World(a)) && m in Do(d.fleet, a).txns
    ensures OwnedBy(Moved(d, World(a)).holds, Do(d.fleet, a).txns[m], m)
  {
    assert TxnHeld(d, m);
    if EndsTxn(d.fleet, a) { assert TxnHeld(d, a.m); }
  }

  /** A transaction left in place still belongs to the call that is placing on its machine. */
  lemma StepOwner(d: Desk, v: Move, m: nat)
    requires DeskInv(d) && May(d, v) && m in Moved(d, v).fleet.txns
    ensures OwnedBy(Moved(d, v).holds, Moved(d, v).fleet.txns[m], m)
  {
    if v.World? {
      WorldOwner(d, v.a, m);
    } else if m in d.fleet.txns {
      assert TxnHeld(d, m);
    }
  }

  lemma InsertWritten(d: Desk, m: nat)
    requires DeskInv(d) && Can(d.fleet, Insert(m)) && Inserted(d.fleet, m).Wrote?
    ensures AllBefore(d.fleet.books.leases, Inserted(d.fleet, m).row)
  {
    assert TxnHeld(d, m) && HoldSound(d, d.fleet.txns[m].session);
    ClosedBeforeNow(d.fleet, d.fleet.txns[m].session, d.fleet.txns[m].project, Inserted(d.fleet, m).row);
  }

  /** A row written stays as written until its transaction ends. */
  lemma RowStays(f: Fleet, a: Action, m: nat)
    requires Can(f, a) && a != Insert(m) && m in Do(f, a).txns && Do(f, a).txns[m].phase.Wrote?
    ensures m in f.txns && f.txns[m].phase == Do(f, a).txns[m].phase && (a.Commit? ==> a.m != m)
  {
  }

  lemma OtherWritten(d: Desk, a: Action, m: nat)
    requires DeskInv(d) && Can(d.fleet, a) && a != Insert(m) && m in Do(d.fleet, a).txns
    requires Do(d.fleet, a).txns[m].phase.Wrote?
    ensures AllBefore(Do(d.fleet, a).books.leases, Do(d.fleet, a).txns[m].phase.row)
  {
    RowStays(d.fleet, a, m);
    assert TxnHeld(d, m) && TxnSound(d.fleet, m);
    if a.Commit? { assert TxnHeld(d, a.m); }
    StepAllBefore(d, a, d.fleet.txns[m].phase.row);
  }

  lemma StepWritten(d: Desk, a: Action, m: nat)
    requires DeskInv(d) && Can(d.fleet, a) && m in Do(d.fleet, a).txns
    ensures var t := Do(d.fleet, a).txns[m];
      t.phase.Wrote? ==> AllBefore(Do(d.fleet, a).books.leases, t.phase.row)
  {
    if Do(d.fleet, a).txns[m].phase.Wrote? {
      if a == Insert(m) { InsertWritten(d, m); } else { OtherWritten(d, a, m); }
    }
  }

  lemma StepTxnHeld(d: Desk, v: Move, m: nat)
    requires DeskInv(d) && May(d, v) && m in Moved(d, v).fleet.txns
    ensures TxnHeld(Moved(d, v), m)
  {
    ActsIsStep(d, v);
    StepOwner(d, v, m);
    StepWritten(d, Acts(d, v), m);
  }

  /** No step of another session opens a hold for this one. */
  lemma StepNoneOpen(d: Desk, a: Action, session: nat, project: nat, j: nat)
    requires DeskInv(d) && Can(d.fleet, a) && j < |Do(d.fleet, a).books.leases|
    requires OpenFor(Do(d.fleet, a).books.leases[j], session, project)
    requires a.Commit? ==> d.fleet.txns[a.m].session != session
    ensures j < |d.fleet.books.leases| && OpenFor(d.fleet.books.leases[j], session, project)
  {
    RowsSame(d.fleet, a);
    if a.Commit? { assert TxnSound(d.fleet, a.m); }
    if j < |d.fleet.books.leases| { RowsEvolve(d.fleet, a, j); }
  }

  lemma SettledIsClosed(f: Fleet, i: nat, project: nat, session: nat)
    requires i < |f.books.leases|
    ensures !OpenFor(Do(f, SettleHold(i, project, Lost)).books.leases[i], session, project)
  {
  }

  lemma StepHold(d: Desk, v: Move, s: nat)
    requires DeskInv(d) && May(d, v) && s in Moved(d, v).holds
    ensures HoldSound(Moved(d, v), s)
  {
    ActsIsStep(d, v);
    var f, a := d.fleet, Acts(d, v);
    var later := Moved(d, v).fleet.books.leases;
    if v.Begin? && v.session == s {
      StartSound(f.books.leases, s, v.project, v.m);
    } else {
      assert HoldSound(d, s);
      var project := d.holds[s].project;
      if a.Commit? { assert TxnHeld(d, a.m); }
      forall j | 0 <= j < |later| && OpenFor(later[j], s, project)
        ensures j < |f.books.leases| && OpenFor(f.books.leases[j], s, project) {
        StepNoneOpen(d, a, s, project, j);
      }
      if v.Leave? && v.session == s {
        var i := d.holds[s].pc.i;
        RowsSame(f, a);
        if i < |f.books.leases| { SettledIsClosed(f, i, project, s); }
      }
      if Moved(d, v).holds[s].pc.Placing? { StepPlacing(d, v, s); }
    }
  }

  predicate PlacedBy(txns: map<nat, Txn>, m: nat, s: nat) {
    m in txns && txns[m].session == s
  }

  lemma WorldPlacing(d: Desk, a: Action, s: nat)
    requires DeskInv(d) && May(d, World(a)) && s in Moved(d, World(a)).holds
    requires Moved(d, World(a)).holds[s].pc.Placing?
    ensures PlacedBy(Do(d.fleet, a).txns, Moved(d, World(a)).holds[s].pc.m, s)
  {
    assert HoldSound(d, s);
    if EndsTxn(d.fleet, a) { assert TxnHeld(d, a.m); }
  }

  /** A call waiting on its placement keeps its transaction until that transaction ends. */
  lemma StepPlacing(d: Desk, v: Move, s: nat)
    requires DeskInv(d) && May(d, v) && s in d.holds && s in Moved(d, v).holds
    requires Moved(d, v).holds[s].pc.Placing?
    ensures PlacedBy(Moved(d, v).fleet.txns, Moved(d, v).holds[s].pc.m, s)
  {
    if v.World? { WorldPlacing(d, v.a, s); } else { assert HoldSound(d, s); }
  }

  lemma StartSound(leases: seq<Lease>, s: nat, project: nat, m: nat)
    requires Disjoint(leases)
    ensures match Start(leases, s, project, m)
      case Touching(_) => true
      case Leaving(i, _) => forall j :: 0 <= j < |leases| && OpenFor(leases[j], s, project) ==> j == i
      case Acquiring(_) => forall j :: 0 <= j < |leases| ==> !OpenFor(leases[j], s, project)
      case Placing(_) => false
  {
    var found := LastOpen(leases, s, project);
    forall j | 0 <= j < |leases| && OpenFor(leases[j], s, project) ensures found.Some? && j == found.value {
    }
  }

  lemma MoveInv(d: Desk, v: Move)
    requires DeskInv(d) && May(d, v)
    ensures DeskInv(Moved(d, v))
  {
    ActsIsStep(d, v);
    StepInv(d.fleet, Acts(d, v));
    StepDisjoint(d, Acts(d, v));
    forall m | m in Moved(d, v).fleet.txns ensures TxnHeld(Moved(d, v), m) { StepTxnHeld(d, v, m); }
    forall s | s in Moved(d, v).holds ensures HoldSound(Moved(d, v), s) { StepHold(d, v, s); }
  }

  // --- every run -----------------------------------------------------------------------------

  ghost predicate DeskRun(trace: seq<Desk>, moves: seq<Move>) {
    |trace| == |moves| + 1 && Fresh(trace[0].fleet) && trace[0].holds == map[]
    && forall k :: 0 <= k < |moves| ==> May(trace[k], moves[k]) && trace[k + 1] == Moved(trace[k], moves[k])
  }

  lemma {:induction false} DeskRunInv(trace: seq<Desk>, moves: seq<Move>, k: nat)
    requires DeskRun(trace, moves) && k < |trace|
    ensures DeskInv(trace[k])
  {
    if k > 0 {
      DeskRunInv(trace, moves, k - 1);
      MoveInv(trace[k - 1], moves[k - 1]);
    }
  }

  /** In every state of every run a session has at most one open hold, and its holds never overlap. */
  lemma OneOpenHold(trace: seq<Desk>, moves: seq<Move>, k: nat, i: nat, j: nat)
    requires DeskRun(trace, moves) && k < |trace|
    requires i < j < |trace[k].fleet.books.leases|
    requires trace[k].fleet.books.leases[i].session == trace[k].fleet.books.leases[j].session
    ensures !Open(trace[k].fleet.books.leases[i])
    ensures Before(trace[k].fleet.books.leases[i], trace[k].fleet.books.leases[j])
  {
    DeskRunInv(trace, moves, k);
  }

  /** A hold left for another machine is closed as lost, now, unless somebody closed it first. */
  lemma LeaveCloses(d: Desk, s: nat)
    requires May(d, Leave(s)) && Owns(d.fleet.books, d.holds[s].pc.i, d.holds[s].project)
    ensures var i, now := d.holds[s].pc.i, Moved(d, Leave(s)).fleet.books.leases;
      var was := d.fleet.books.leases;
      && |now| == |was|
      && now[i] == (if Open(was[i]) then was[i].(close := Some(Close(d.fleet.books.clock, Lost))) else was[i])
      && forall k :: 0 <= k < |was| && k != i ==> now[k] == was[k]
  {
  }

  // --- what a kept hold's answer is worth ----------------------------------------------------

  /** The move closes hold i. */
  predicate Closes(d: Desk, v: Move, i: nat)
    requires May(d, v)
  {
    var a := Acts(d, v);
    a.SettleHold? && a.i == i && Owns(d.fleet.books, i, a.project) && Open(d.fleet.books.leases[i])
  }

  lemma OpenUnlessClosed(d: Desk, v: Move, i: nat)
    requires May(d, v) && i < |d.fleet.books.leases|
    ensures i < |Moved(d, v).fleet.books.leases|
    ensures var l, k := d.fleet.books.leases[i], Moved(d, v).fleet.books.leases[i];
      && k.project == l.project && k.session == l.session && k.machine == l.machine
      && (Open(k) <==> Open(l) && !Closes(d, v, i))
  {
    ActsIsStep(d, v);
    RowsEvolve(d.fleet, Acts(d, v), i);
  }

  /** A call past its read has the hold it read, until it moves on itself. */
  lemma TouchingCame(d: Desk, v: Move, s: nat)
    requires May(d, v) && s in Moved(d, v).holds && Moved(d, v).holds[s].pc.Touching?
    ensures (v.Begin? && v.session == s) || (s in d.holds && d.holds[s] == Moved(d, v).holds[s])
  {
  }

  ghost predicate ClosedBetween(trace: seq<Desk>, moves: seq<Move>, b: nat, k: nat, i: nat) {
    exists j :: b < j < k && j < |moves| && j < |trace| && May(trace[j], moves[j]) && Closes(trace[j], moves[j], i)
  }

  lemma ClosedNext(trace: seq<Desk>, moves: seq<Move>, b: nat, k: nat, i: nat)
    requires b < k < |moves| && k < |trace| && May(trace[k], moves[k])
    ensures ClosedBetween(trace, moves, b, k + 1, i)
            <==> ClosedBetween(trace, moves, b, k, i) || Closes(trace[k], moves[k], i)
  {
  }

  /** Hold i is of session s on the machine that call b asked for, and open unless closed since. */
  ghost predicate KeptSince(trace: seq<Desk>, moves: seq<Move>, b: nat, k: nat, s: nat, i: nat)
    requires |trace| == |moves| + 1
  {
    && b < k < |trace| && moves[b].Begin? && moves[b].session == s
    && var leases := trace[k].fleet.books.leases;
    && i < |leases| && leases[i].machine == moves[b].m && leases[i].session == s
    && leases[i].project == moves[b].project
    && (Open(leases[i]) <==> !ClosedBetween(trace, moves, b, k, i))
  }

  lemma KeptNext(trace: seq<Desk>, moves: seq<Move>, b: nat, k: nat, s: nat, i: nat)
    requires DeskRun(trace, moves) && k < |moves| && KeptSince(trace, moves, b, k, s, i)
    ensures KeptSince(trace, moves, b, k + 1, s, i)
  {
    OpenUnlessClosed(trace[k], moves[k], i);
    ClosedNext(trace, moves, b, k, i);
  }

  lemma KeptFirst(trace: seq<Desk>, moves: seq<Move>, b: nat, s: nat)
    requires DeskRun(trace, moves) && b < |moves| && moves[b].Begin? && moves[b].session == s
    requires s in trace[b + 1].holds && trace[b + 1].holds[s].pc.Touching?
    ensures KeptSince(trace, moves, b, b + 1, s, trace[b + 1].holds[s].pc.i)
  {
  }

  lemma {:induction false} TouchingSince(trace: seq<Desk>, moves: seq<Move>, k: nat, s: nat) returns (b: nat)
    requires DeskRun(trace, moves) && k < |trace| && s in trace[k].holds && trace[k].holds[s].pc.Touching?
    ensures KeptSince(trace, moves, b, k, s, trace[k].holds[s].pc.i)
  {
    var d, v := trace[k - 1], moves[k - 1];
    TouchingCame(d, v, s);
    if v.Begin? && v.session == s {
      b := k - 1;
      KeptFirst(trace, moves, b, s);
    } else {
      b := TouchingSince(trace, moves, k - 1, s);
      KeptNext(trace, moves, b, k - 1, s, d.holds[s].pc.i);
    }
  }

  /** What HoldMachine answers when it keeps a hold alive: a hold of this session on the machine asked for, and
      still open exactly when nobody settled it between the call's read and its touch. */
  lemma KeptIsOpenExactly(trace: seq<Desk>, moves: seq<Move>, k: nat, s: nat) returns (b: nat)
    requires DeskRun(trace, moves) && k < |moves| && moves[k] == Keep(s)
    ensures var i, leases := trace[k].holds[s].pc.i, trace[k + 1].fleet.books.leases;
      && KeptSince(trace, moves, b, k, s, i) && i < |leases|
      && (Open(leases[i]) <==> !ClosedBetween(trace, moves, b, k, i))
  {
    b := TouchingSince(trace, moves, k, s);
    OpenUnlessClosed(trace[k], moves[k], trace[k].holds[s].pc.i);
  }

  /** And it happens: wherever a session with no call in flight holds a machine, a settle between the read and
      the touch leaves the call to answer a hold that is closed. */
  lemma KeptCanBeClosed(d: Desk, session: nat, project: nat, m: nat, i: nat, reason: Reason)
    requires session !in d.holds && LastOpen(d.fleet.books.leases, session, project) == Some(i)
    requires d.fleet.books.leases[i].machine == m
    ensures var d1 := Moved(d, Begin(session, project, m));
      var d2 := Moved(d1, World(SettleHold(i, project, reason)));
      && May(d2, Keep(session)) && d2.holds[session] == Hold(project, Touching(i))
      && !Open(Moved(d2, Keep(session)).fleet.books.leases[i])
  {
  }

  // --- the bill of a session -----------------------------------------------------------------

  lemma {:induction false} HoldsOfAt(leases: seq<Lease>, session: nat, k: nat) returns (i: nat)
    requires k < |HoldsOf(leases, session)|
    ensures i < |leases| && leases[i] == HoldsOf(leases, session)[k] && leases[i].session == session
    ensures |HoldsOf(leases[..i], session)| == k
  {
    var n := |leases| - 1;
    var before := HoldsOf(leases[..n], session);
    if k < |before| {
      i := HoldsOfAt(leases[..n], session, k);
      assert leases[..n][..i] == leases[..i];
    } else {
      i := n;
    }
  }

  lemma {:induction false} HoldsOfGrows(leases: seq<Lease>, session: nat, i: nat)
    requires i <= |leases|
    ensures |HoldsOf(leases[..i], session)| <= |HoldsOf(leases, session)|
  {
    if i < |leases| {
      var n := |leases| - 1;
      assert leases[..n][..i] == leases[..i];
      HoldsOfGrows(leases[..n], session, i);
    } else {
      assert leases[..i] == leases;
    }
  }

  /** The holds that are over: all, or all but the last. */
  function ClosedPart(h: seq<Lease>): seq<Lease> {
    if h != [] && Open(h[|h| - 1]) then h[..|h| - 1] else h
  }

  predicate InOrder(h: seq<Lease>, clock: nat) {
    && (forall k :: 0 <= k < |h| ==> Timely(h[k], clock))
    && (forall j, k :: 0 <= j < k < |h| ==> Before(h[j], h[k]))
  }

  lemma HoldsInOrder(b: Books, session: nat)
    requires AllTimely(b) && Disjoint(b.leases)
    ensures InOrder(HoldsOf(b.leases, session), b.clock)
  {
    var h := HoldsOf(b.leases, session);
    forall k | 0 <= k < |h| ensures Timely(h[k], b.clock) {
      var i := HoldsOfAt(b.leases, session, k);
      assert Timely(b.leases[i], b.clock);
    }
    forall j, k | 0 <= j < k < |h| ensures Before(h[j], h[k]) {
      var x := HoldsOfAt(b.leases, session, j);
      var y := HoldsOfAt(b.leases, session, k);
      if y <= x {
        assert b.leases[..x][..y] == b.leases[..y];
        HoldsOfGrows(b.leases[..x], session, y);
      }
    }
  }

  lemma ClosedConsecutive(h: seq<Lease>, clock: nat)
    requires InOrder(h, clock)
    ensures Consecutive(ClosedPart(h)) && SumBilled(ClosedPart(h)) == SumBilled(h)
  {
    var last := |h| - 1;
    forall k | 0 <= k < |ClosedPart(h)| ensures h[k].close.Some? && Timely(h[k], clock) {
      if k < last { assert Before(h[k], h[last]); }
    }
  }

  /** In every state of every run: all of a session's holds but the last are closed; its bill so far is the span
      of the closed ones, from first start to last release, less the gaps between them and the idle tails, so
      never more than that span; and a hold still open began after it and has added nothing. */
  lemma SessionBill(trace: seq<Desk>, moves: seq<Move>, k: nat, session: nat)
    requires DeskRun(trace, moves) && k < |trace|
    ensures var h := HoldsOf(trace[k].fleet.books.leases, session);
      var c := ClosedPart(h);
      && Consecutive(c) && SumBilled(h) == SumBilled(c)
      && (c == [] ==> SumBilled(h) == 0)
      && (c != [] ==>
           && SumBilled(h) == (c[|c| - 1].close.value.at - c[0].started) - Gaps(c) - IdleTails(c)
           && SumBilled(h) <= c[|c| - 1].close.value.at - c[0].started)
      && (c != [] && |c| < |h| ==> c[|c| - 1].close.value.at <= h[|c|].started)
  {
    DeskRunInv(trace, moves, k);
    var b := trace[k].fleet.books;
    var h := HoldsOf(b.leases, session);
    var c := ClosedPart(h);
    HoldsInOrder(b, session);
    ClosedConsecutive(h, b.clock);
    if c != [] {
      BillIsSpanLessGapsAndTails(c);
      if |c| < |h| { assert Before(h[|c| - 1], h[|c|]); }
    }
  }
}
