/** Placing sessions on machines (packages/coordinator/occupancy.go, storage/queries/leases.sql). An acquire
    is a transaction of several statements under the machine's row lock; settles, touches and reads take no
    machine lock and fall anywhere between those statements. */
module Fleet {
  import opened Base
  import opened Books

  /** capacity 0 is a machine that declared nothing; owner None is the free fleet. */
  datatype Machine = Machine(capacity: nat, owner: Option<nat>)

  datatype Refusal = HeldByAnother | AtCapacity | SessionUnseen

  /** Where an acquire stands. `why` and `settled` are history: the reason the INSERT wrote no row, and
      whether a hold on the machine was settled since. */
  datatype Phase =
    | Locked
    | Wrote(row: Lease)
    | Refused(why: Refusal, settled: bool, asked: bool)

  datatype Txn = Txn(project: nat, session: nat, phase: Phase)

  /** A refusal as the caller heard it, beside the reason the INSERT had. */
  datatype Answer = Answer(given: Refusal, why: Refusal, settled: bool)

  /** txns is keyed by the machine whose row the transaction has locked. */
  datatype Fleet = Fleet(
    machines: map<nat, Machine>,
    sessions: map<nat, nat>,
    books: Books,
    txns: map<nat, Txn>,
    answers: seq<Answer>)

  // --- reads ---------------------------------------------------------------------------------

  predicate OpenHold(l: Lease, m: nat) {
    Open(l) && l.machine == m
  }

  function OpenOn(leases: seq<Lease>, m: nat): nat {
    if leases == [] then 0
    else OpenOn(leases[..|leases| - 1], m) + (if OpenHold(leases[|leases| - 1], m) then 1 else 0)
  }

  predicate Held(leases: seq<Lease>, m: nat, project: nat) {
    exists i :: 0 <= i < |leases| && OpenHold(leases[i], m) && leases[i].project != project
  }

  predicate HasRoom(open: int, capacity: int) {
    capacity <= 0 || open < capacity
  }

  predicate Visible(machine: Machine, project: nat) {
    machine.owner.None? || machine.owner.value == project
  }

  predicate SessionSeen(sessions: map<nat, nat>, session: nat, project: nat) {
    session in sessions && sessions[session] == project
  }

  /** The INSERT's own guard, on the rows committed when it runs. */
  predicate Admits(f: Fleet, m: nat, project: nat, session: nat)
    requires m in f.machines
  {
    && SessionSeen(f.sessions, session, project)
    && (f.machines[m].capacity == 0 || OpenOn(f.books.leases, m) < f.machines[m].capacity)
    && !Held(f.books.leases, m, project)
  }

  /** Which conjunct refused, in the order the caller is told. */
  function Why(leases: seq<Lease>, m: nat, capacity: nat, project: nat): Refusal {
    if Held(leases, m, project) then HeldByAnother
    else if !HasRoom(OpenOn(leases, m), capacity) then AtCapacity
    else SessionUnseen
  }

  // --- steps ---------------------------------------------------------------------------------

  datatype Action =
    | Lock(m: nat, project: nat, session: nat)
    | Insert(m: nat)
    | AskHeld(m: nat)
    | AskOpen(m: nat)
    | Commit(m: nat)
    | Abort(m: nat)
    | TouchHold(i: nat, project: nat)
    | SettleHold(i: nat, project: nat, reason: Reason)
    | Pass(d: nat)
    | Declare(m: nat, capacity: nat)
    | Enrol(m: nat, machine: Machine)
    | OpenSession(session: nat, project: nat)

  predicate Can(f: Fleet, a: Action) {
    match a
    case Lock(m, project, session) => m in f.machines && Visible(f.machines[m], project) && m !in f.txns
    case Insert(m) => m in f.txns && m in f.machines && f.txns[m].phase.Locked?
    case AskHeld(m) => m in f.txns && f.txns[m].phase.Refused? && !f.txns[m].phase.asked
    case AskOpen(m) => m in f.txns && m in f.machines && f.txns[m].phase.Refused? && f.txns[m].phase.asked
    case Commit(m) => m in f.txns && f.txns[m].phase.Wrote?
    case Abort(m) => m in f.txns
    case Declare(m, _) => m in f.machines && m !in f.txns
    case Enrol(m, _) => m !in f.machines
    case OpenSession(session, _) => session !in f.sessions
    case TouchHold(_, _) => true
    case SettleHold(_, _, _) => true
    case Pass(_) => true
  }

  function Inserted(f: Fleet, m: nat): Phase
    requires m in f.txns && m in f.machines
  {
    var t := f.txns[m];
    if Admits(f, m, t.project, t.session)
    then Wrote(Lease(t.project, m, t.session, f.books.clock, f.books.clock, None))
    else Refused(Why(f.books.leases, m, f.machines[m].capacity, t.project), false, false)
  }

  function Answered(f: Fleet, m: nat, given: Refusal): Fleet
    requires m in f.txns && f.txns[m].phase.Refused?
  {
    var was := f.txns[m].phase;
    f.(txns := f.txns - {m}, answers := f.answers + [Answer(given, was.why, was.settled)])
  }

  function Noted(txns: map<nat, Txn>, m: nat): map<nat, Txn> {
    if m in txns && txns[m].phase.Refused?
    then txns[m := txns[m].(phase := txns[m].phase.(settled := true))]
    else txns
  }

  function SettledAt(f: Fleet, i: nat, project: nat, reason: Reason): Fleet {
    if Owns(f.books, i, project) && Open(f.books.leases[i])
    then f.(books := Settled(f.books, i, project, reason), txns := Noted(f.txns, f.books.leases[i].machine))
    else f
  }

  function Do(f: Fleet, a: Action): Fleet
    requires Can(f, a)
  {
    match a
    case Lock(m, project, session) => f.(txns := f.txns[m := Txn(project, session, Locked)])
    case Insert(m) => f.(txns := f.txns[m := f.txns[m].(phase := Inserted(f, m))])
    case AskHeld(m) =>
      if Held(f.books.leases, m, f.txns[m].project) then Answered(f, m, HeldByAnother)
      else f.(txns := f.txns[m := f.txns[m].(phase := f.txns[m].phase.(asked := true))])
    case AskOpen(m) =>
      if !HasRoom(OpenOn(f.books.leases, m), f.machines[m].capacity) then Answered(f, m, AtCapacity)
      else Answered(f, m, SessionUnseen)
    case Commit(m) => f.(books := Acquired(f.books, f.txns[m].phase.row), txns := f.txns - {m})
    case Abort(m) => f.(txns := f.txns - {m})
    case TouchHold(i, project) => f.(books := Touched(f.books, i, project))
    case SettleHold(i, project, reason) => SettledAt(f, i, project, reason)
    case Pass(d) => f.(books := Waited(f.books, d))
    case Declare(m, capacity) => f.(machines := f.machines[m := f.machines[m].(capacity := capacity)])
    case Enrol(m, machine) => f.(machines := f.machines[m := machine])
    case OpenSession(session, project) => f.(sessions := f.sessions[session := project])
  }

  // --- counting open holds -------------------------------------------------------------------

  lemma {:induction false} OpenOnUpdate(leases: seq<Lease>, i: nat, l: Lease, m: nat)
    requires i < |leases|
    ensures OpenOn(leases[i := l], m)
            == OpenOn(leases, m) - (if OpenHold(leases[i], m) then 1 else 0) + (if OpenHold(l, m) then 1 else 0)
  {
    var n := |leases| - 1;
    if i == n {
      assert leases[i := l][..n] == leases[..n];
    } else {
      assert leases[i := l][..n] == leases[..n][i := l];
      OpenOnUpdate(leases[..n], i, l, m);
    }
  }

  lemma OpenOnAppend(leases: seq<Lease>, l: Lease, m: nat)
    ensures OpenOn(leases + [l], m) == OpenOn(leases, m) + (if OpenHold(l, m) then 1 else 0)
  {
    assert (leases + [l])[..|leases|] == leases;
  }

  /** The rows counted. */
  function OpenRows(leases: seq<Lease>, m: nat): set<nat> {
    set i | 0 <= i < |leases| && leases[i].close.None? && leases[i].machine == m
  }

  lemma {:induction false} OpenOnCounts(leases: seq<Lease>, m: nat)
    ensures OpenOn(leases, m) == |OpenRows(leases, m)|
  {
    if leases == [] {
      assert OpenRows(leases, m) == {};
    } else {
      var n := |leases| - 1;
      OpenOnCounts(leases[..n], m);
      var before := OpenRows(leases[..n], m);
      if OpenHold(leases[n], m) {
        assert OpenRows(leases, m) == before + {n};
      } else {
        assert OpenRows(leases, m) == before;
      }
    }
  }

  lemma {:induction false} NoneOpen(leases: seq<Lease>, m: nat)
    requires forall i :: 0 <= i < |leases| ==> !OpenHold(leases[i], m)
    ensures OpenOn(leases, m) == 0
  {
    if leases != [] { NoneOpen(leases[..|leases| - 1], m); }
  }

  // --- the invariant -------------------------------------------------------------------------

  /** Every hold is by the project its session belongs to. */
  predicate Rightful(f: Fleet) {
    forall i :: 0 <= i < |f.books.leases| ==>
      SessionSeen(f.sessions, f.books.leases[i].session, f.books.leases[i].project)
  }

  /** Exclusivity: the open holds on one machine are one project's. */
  predicate OneTenant(leases: seq<Lease>) {
    forall i, j :: 0 <= i < |leases| && 0 <= j < |leases| && Open(leases[i]) && OpenHold(leases[j], leases[i].machine)
      ==> leases[i].project == leases[j].project
  }

  predicate RowReady(f: Fleet, m: nat, t: Txn) {
    t.phase.Wrote? ==>
      var row := t.phase.row;
      && OpenHold(row, m) && row.project == t.project && row.session == t.session
      && Timely(row, f.books.clock)
      && SessionSeen(f.sessions, row.session, row.project)
      && !Held(f.books.leases, m, row.project)
  }

  /** What a refused acquire may still find, given why it was refused: holds on its machine only end. */
  predicate RefusalSound(f: Fleet, m: nat, t: Txn)
    requires m in f.machines
  {
    t.phase.Refused? ==>
      var leases, capacity := f.books.leases, f.machines[m].capacity;
      && (t.phase.why.HeldByAnother? ==>
           forall i :: 0 <= i < |leases| && OpenHold(leases[i], m) ==> leases[i].project != t.project)
      && (t.phase.why.AtCapacity? ==> !Held(leases, m, t.project))
      && (t.phase.why.SessionUnseen? ==> !Held(leases, m, t.project) && HasRoom(OpenOn(leases, m), capacity))
      && (t.phase.asked ==> !Held(leases, m, t.project))
      && (!t.phase.settled ==> t.phase.why == Why(leases, m, capacity, t.project))
  }

  predicate TxnSound(f: Fleet, m: nat) {
    m in f.txns ==> m in f.machines && RowReady(f, m, f.txns[m]) && RefusalSound(f, m, f.txns[m])
  }

  predicate TxnsSound(f: Fleet) {
    forall m :: m in f.txns ==> TxnSound(f, m)
  }

  predicate Truthful(a: Answer) {
    a.given == a.why || (a.settled && a.given.SessionUnseen?)
  }

  predicate AllTruthful(f: Fleet) {
    forall k :: 0 <= k < |f.answers| ==> Truthful(f.answers[k])
  }

  ghost predicate Inv(f: Fleet) {
    Balanced(f.books) && Rightful(f) && OneTenant(f.books.leases) && TxnsSound(f) && AllTruthful(f)
  }

  /** Open holds, and the row a placement has written and not yet committed. */
  function Load(f: Fleet, m: nat): nat {
    OpenOn(f.books.leases, m) + (if m in f.txns && f.txns[m].phase.Wrote? then 1 else 0)
  }

  predicate Fits(f: Fleet, m: nat)
    requires m in f.machines
  {
    f.machines[m].capacity == 0 || Load(f, m) <= f.machines[m].capacity
  }

  // --- preservation --------------------------------------------------------------------------

  /** How a step moves the books: by one of the books' own events, or not at all. */
  lemma StepBooks(f: Fleet, a: Action)
    requires Inv(f) && Can(f, a)
    ensures Balanced(Do(f, a).books)
  {
    match a
    case Commit(m) => assert TxnSound(f, m); AcquireBalanced(f.books, f.txns[m].phase.row);
    case TouchHold(i, project) => TouchBalanced(f.books, i, project);
    case SettleHold(i, project, reason) => SettleBalanced(f.books, i, project, reason);
    case Pass(d) => WaitBalanced(f.books, d);
    case _ =>
  }

  lemma CommitOneTenant(f: Fleet, m: nat)
    requires Inv(f) && Can(f, Commit(m))
    ensures OneTenant(Do(f, Commit(m)).books.leases) && Rightful(Do(f, Commit(m)))
  {
    assert TxnSound(f, m);
    var leases, row := f.books.leases, f.txns[m].phase.row;
    forall i | 0 <= i < |leases| && OpenHold(leases[i], m) ensures leases[i].project == row.project {
      assert !Held(leases, m, row.project);
    }
  }

  lemma StepTenants(f: Fleet, a: Action)
    requires Inv(f) && Can(f, a)
    ensures Rightful(Do(f, a)) && OneTenant(Do(f, a).books.leases)
  {
    if a.Commit? { CommitOneTenant(f, a.m); }
  }

  /** A commit, if it is one, is of another machine's row. */
  predicate PlacedElsewhere(f: Fleet, a: Action, m: nat) {
    a.Commit? ==> a.m != m
                  && (a.m in f.txns && f.txns[a.m].phase.Wrote? ==> f.txns[a.m].phase.row.machine != m)
  }

  /** No step but a commit on the machine itself adds an open hold there. */
  lemma HoldsOnlyEnd(f: Fleet, a: Action, m: nat)
    requires Can(f, a) && PlacedElsewhere(f, a, m)
    ensures forall i :: 0 <= i < |Do(f, a).books.leases| && OpenHold(Do(f, a).books.leases[i], m)
              ==> i < |f.books.leases| && OpenHold(f.books.leases[i], m)
                  && Do(f, a).books.leases[i].project == f.books.leases[i].project
    ensures OpenOn(Do(f, a).books.leases, m) <= OpenOn(f.books.leases, m)
  {
    var leases := f.books.leases;
    if a.TouchHold? && Owns(f.books, a.i, a.project) && Open(leases[a.i]) {
      OpenOnUpdate(leases, a.i, Do(f, a).books.leases[a.i], m);
    } else if a.SettleHold? && Owns(f.books, a.i, a.project) && Open(leases[a.i]) {
      OpenOnUpdate(leases, a.i, Do(f, a).books.leases[a.i], m);
    } else if a.Commit? {
      OpenOnAppend(leases, f.txns[a.m].phase.row, m);
    }
  }

  lemma HeldOnlyEnds(f: Fleet, a: Action, m: nat, project: nat)
    requires Can(f, a) && PlacedElsewhere(f, a, m)
    ensures Held(Do(f, a).books.leases, m, project) ==> Held(f.books.leases, m, project)
  {
    HoldsOnlyEnd(f, a, m);
    if Held(Do(f, a).books.leases, m, project) {
      var i :| 0 <= i < |Do(f, a).books.leases| && OpenHold(Do(f, a).books.leases[i], m)
               && Do(f, a).books.leases[i].project != project;
      assert OpenHold(f.books.leases[i], m);
    }
  }

  /** Only settling an open hold on the machine ends one there. */
  lemma OnlySettleEnds(f: Fleet, a: Action, m: nat)
    requires Can(f, a) && PlacedElsewhere(f, a, m)
    requires !(a.SettleHold? && Owns(f.books, a.i, a.project) && OpenHold(f.books.leases[a.i], m))
    ensures OpenOn(Do(f, a).books.leases, m) == OpenOn(f.books.leases, m)
    ensures forall project :: Held(Do(f, a).books.leases, m, project) == Held(f.books.leases, m, project)
  {
    var leases, later := f.books.leases, Do(f, a).books.leases;
    if a.TouchHold? && Owns(f.books, a.i, a.project) && Open(leases[a.i]) {
      OpenOnUpdate(leases, a.i, later[a.i], m);
    } else if a.SettleHold? && Owns(f.books, a.i, a.project) && Open(leases[a.i]) {
      OpenOnUpdate(leases, a.i, later[a.i], m);
    } else if a.Commit? {
      OpenOnAppend(leases, f.txns[a.m].phase.row, m);
    }
    forall project ensures Held(later, m, project) == Held(leases, m, project) {
      HeldOnlyEnds(f, a, m, project);
      if Held(leases, m, project) {
        var i :| 0 <= i < |leases| && OpenHold(leases[i], m) && leases[i].project != project;
        assert OpenHold(later[i], m) && later[i].project != project;
      }
    }
  }

  /** A transaction another step leaves alone. */
  predicate Untouched(f: Fleet, a: Action, m: nat) {
    m in f.txns && (match a
      case Insert(k) => k != m
      case AskHeld(k) => k != m
      case AskOpen(k) => k != m
      case Commit(k) => k != m
      case Abort(k) => k != m
      case _ => true)
  }

  lemma StepRow(f: Fleet, a: Action, m: nat)
    requires Inv(f) && Can(f, a) && Untouched(f, a, m)
    ensures m in Do(f, a).txns && RowReady(Do(f, a), m, Do(f, a).txns[m])
  {
    assert TxnSound(f, m);
    if a.Commit? { assert TxnSound(f, a.m); }
    if f.txns[m].phase.Wrote? { HeldOnlyEnds(f, a, m, f.txns[m].project); }
  }

  lemma StepRefusal(f: Fleet, a: Action, m: nat)
    requires Inv(f) && Can(f, a) && Untouched(f, a, m)
    ensures m in Do(f, a).txns && m in Do(f, a).machines && RefusalSound(Do(f, a), m, Do(f, a).txns[m])
  {
    assert TxnSound(f, m);
    if a.Commit? { assert TxnSound(f, a.m); }
    if f.txns[m].phase.Refused? {
      if a.SettleHold? && Owns(f.books, a.i, a.project) && OpenHold(f.books.leases[a.i], m) {
        HoldsOnlyEnd(f, a, m);
        HeldOnlyEnds(f, a, m, f.txns[m].project);
      } else {
        OnlySettleEnds(f, a, m);
        SameTxn(f, a, m);
        SameRefusal(f, a, m);
      }
    }
  }

  lemma SameTxn(f: Fleet, a: Action, m: nat)
    requires Can(f, a) && Untouched(f, a, m) && m in f.machines
    requires !(a.SettleHold? && Owns(f.books, a.i, a.project) && OpenHold(f.books.leases[a.i], m))
    ensures m in Do(f, a).txns && Do(f, a).txns[m] == f.txns[m]
    ensures m in Do(f, a).machines && Do(f, a).machines[m] == f.machines[m]
  {
  }

  lemma SameRefusal(f: Fleet, a: Action, m: nat)
    requires Can(f, a) && m in f.txns && m in f.machines && RefusalSound(f, m, f.txns[m])
    requires PlacedElsewhere(f, a, m)
    requires m in Do(f, a).machines && Do(f, a).machines[m] == f.machines[m]
    requires OpenOn(Do(f, a).books.leases, m) == OpenOn(f.books.leases, m)
    requires forall project :: Held(Do(f, a).books.leases, m, project) == Held(f.books.leases, m, project)
    ensures RefusalSound(Do(f, a), m, f.txns[m])
  {
    HoldsOnlyEnd(f, a, m);
  }

  lemma InsertSound(f: Fleet, m: nat)
    requires Inv(f) && Can(f, Insert(m))
    ensures TxnSound(Do(f, Insert(m)), m)
  {
    assert TxnSound(f, m);
    var t := f.txns[m];
    var leases := f.books.leases;
    if Inserted(f, m).Refused? && Held(leases, m, t.project) {
      var k :| 0 <= k < |leases| && OpenHold(leases[k], m) && leases[k].project != t.project;
      forall i | 0 <= i < |leases| && OpenHold(leases[i], m) ensures leases[i].project != t.project {
        assert OpenHold(leases[i], leases[k].machine);
      }
    }
  }

  lemma StepTxn(f: Fleet, a: Action, m: nat)
    requires Inv(f) && Can(f, a) && m in Do(f, a).txns
    ensures TxnSound(Do(f, a), m)
  {
    if Untouched(f, a, m) {
      StepRow(f, a, m);
      StepRefusal(f, a, m);
    } else if a.Insert? {
      InsertSound(f, m);
    } else {
      assert m in f.txns ==> TxnSound(f, m);
    }
  }

  /** The one way an answer misnames the reason: the last read finds room again on a machine that was full or
      another's when the INSERT looked. */
  predicate Misnames(f: Fleet, a: Action) {
    a.AskOpen? && a.m in f.txns && a.m in f.machines && f.txns[a.m].phase.Refused?
    && !f.txns[a.m].phase.why.SessionUnseen? && HasRoom(OpenOn(f.books.leases, a.m), f.machines[a.m].capacity)
  }

  /** The answer a step adds, if it adds one. */
  predicate Answers(f: Fleet, a: Action)
    requires Can(f, a)
  {
    |Do(f, a).answers| > |f.answers|
  }

  /** A step that answers gives another reason than the INSERT had exactly when it misnames; and then it says
      that the session is unavailable, a hold on the machine having been settled since the INSERT. */
  lemma AnswerExact(f: Fleet, a: Action)
    requires Inv(f) && Can(f, a) && Answers(f, a)
    ensures var said := Do(f, a).answers[|f.answers|];
      && Do(f, a).answers == f.answers + [said]
      && (said.given != said.why <==> Misnames(f, a))
      && (Misnames(f, a) ==> said.given.SessionUnseen? && said.settled)
  {
    assert TxnSound(f, a.m);
    if a.AskOpen? && f.txns[a.m].phase.why.HeldByAnother? {
      var leases, t := f.books.leases, f.txns[a.m];
      forall i | 0 <= i < |leases| ensures !OpenHold(leases[i], a.m) {
        assert !Held(leases, a.m, t.project);
      }
      NoneOpen(leases, a.m);
    }
  }

  /** The two named refusals are never wrong about why the INSERT wrote nothing, and the third can be
      wrong only when a hold on the machine was settled after it. */
  lemma AnswerSound(f: Fleet, a: Action)
    requires Inv(f) && Can(f, a)
    ensures AllTruthful(Do(f, a))
  {
    if Answers(f, a) { AnswerExact(f, a); }
  }

  lemma StepInv(f: Fleet, a: Action)
    requires Inv(f) && Can(f, a)
    ensures Inv(Do(f, a))
  {
    StepBooks(f, a);
    StepTenants(f, a);
    AnswerSound(f, a);
    forall m | m in Do(f, a).txns ensures TxnSound(Do(f, a), m) {
      StepTxn(f, a, m);
    }
  }

  // --- the ceiling ---------------------------------------------------------------------------

  /** A machine told to be smaller than what it already carries. */
  predicate Undercuts(f: Fleet, a: Action, m: nat) {
    a.Declare? && a.m == m && 0 < a.capacity < Load(f, m)
  }

  /** Whatever adds to a machine's load leaves it within the capacity then in force. */
  lemma GrantFits(f: Fleet, a: Action, m: nat)
    requires Inv(f) && Can(f, a) && m in f.machines
    ensures m in Do(f, a).machines
    ensures Load(Do(f, a), m) > Load(f, m) ==> Fits(Do(f, a), m)
    ensures Load(Do(f, a), m) > Load(f, m) ==> a == Insert(m)
  {
    if a.Commit? {
      assert TxnSound(f, a.m);
      OpenOnAppend(f.books.leases, f.txns[a.m].phase.row, m);
    } else {
      HoldsOnlyEnd(f, a, m);
    }
  }

  lemma CeilingStep(f: Fleet, a: Action, m: nat)
    requires Inv(f) && Can(f, a) && m in f.machines && Fits(f, m)
    ensures m in Do(f, a).machines && (Fits(Do(f, a), m) <==> !Undercuts(f, a, m))
  {
    GrantFits(f, a, m);
  }

  // --- every run -----------------------------------------------------------------------------

  predicate Fresh(f: Fleet) {
    f.books.leases == [] && f.books.ledger == [] && f.txns == map[] && f.answers == []
  }

  ghost predicate Run(trace: seq<Fleet>, actions: seq<Action>) {
    |trace| == |actions| + 1 && Fresh(trace[0])
    && forall k :: 0 <= k < |actions| ==> Can(trace[k], actions[k]) && trace[k + 1] == Do(trace[k], actions[k])
  }

  lemma {:induction false} RunInv(trace: seq<Fleet>, actions: seq<Action>, k: nat)
    requires Run(trace, actions) && k < |trace|
    ensures Inv(trace[k])
  {
    if k > 0 {
      RunInv(trace, actions, k - 1);
      StepInv(trace[k - 1], actions[k - 1]);
    }
  }

  /** In every state of every run all open holds on a machine belong to one project, and that project
      is the one its sessions belong to. */
  lemma Exclusivity(trace: seq<Fleet>, actions: seq<Action>, k: nat, i: nat, j: nat)
    requires Run(trace, actions) && k < |trace|
    requires i < |trace[k].books.leases| && j < |trace[k].books.leases|
    requires var leases := trace[k].books.leases;
      Open(leases[i]) && Open(leases[j]) && leases[i].machine == leases[j].machine
    ensures var leases := trace[k].books.leases;
      leases[i].project == leases[j].project
      && SessionSeen(trace[k].sessions, leases[i].session, leases[i].project)
  {
    RunInv(trace, actions, k);
  }

  /** Within its capacity, or not yet enrolled and carrying nothing. */
  predicate FitsIfKnown(f: Fleet, m: nat) {
    if m in f.machines then Fits(f, m) else OpenOn(f.books.leases, m) == 0 && m !in f.txns
  }

  lemma UnknownStays(f: Fleet, a: Action, m: nat)
    requires Inv(f) && Can(f, a) && m !in f.machines && FitsIfKnown(f, m)
    ensures OpenOn(Do(f, a).books.leases, m) == 0 && m !in Do(f, a).txns
  {
    if a.Commit? { assert TxnSound(f, a.m); }
    HoldsOnlyEnd(f, a, m);
  }

  lemma NextFits(f: Fleet, a: Action, m: nat)
    requires Inv(f) && Can(f, a) && FitsIfKnown(f, m) && !Undercuts(f, a, m)
    ensures FitsIfKnown(Do(f, a), m)
  {
    if m in f.machines { CeilingStep(f, a, m); } else { UnknownStays(f, a, m); }
  }

  lemma {:induction false} RunFits(trace: seq<Fleet>, actions: seq<Action>, k: nat, m: nat)
    requires Run(trace, actions) && k < |trace|
    requires forall j :: 0 <= j < k ==> !Undercuts(trace[j], actions[j], m)
    ensures FitsIfKnown(trace[k], m)
  {
    if k > 0 {
      RunFits(trace, actions, k - 1, m);
      RunInv(trace, actions, k - 1);
      NextFits(trace[k - 1], actions[k - 1], m);
    } else {
      NoneOpen(trace[0].books.leases, m);
    }
  }

  /** A machine of declared capacity never holds more than it, in any run that never shrinks it below
      its load. */
  lemma Ceiling(trace: seq<Fleet>, actions: seq<Action>, k: nat, m: nat)
    requires Run(trace, actions) && k < |trace| && m in trace[k].machines
    requires forall j :: 0 <= j < k ==> !Undercuts(trace[j], actions[j], m)
    ensures trace[k].machines[m].capacity > 0 ==> OpenOn(trace[k].books.leases, m) <= trace[k].machines[m].capacity
  {
    RunFits(trace, actions, k, m);
  }

  /** The step that gave an answer. */
  lemma {:induction false} AnsweredAt(trace: seq<Fleet>, actions: seq<Action>, k: nat, n: nat) returns (i: nat)
    requires Run(trace, actions) && k < |trace| && n < |trace[k].answers|
    ensures i < k && |trace[i].answers| == n && Answers(trace[i], actions[i])
    ensures trace[i + 1].answers[n] == trace[k].answers[n]
  {
    var f, a := trace[k - 1], actions[k - 1];
    AnswersGrow(f, a);
    if n < |f.answers| { i := AnsweredAt(trace, actions, k - 1, n); } else { i := k - 1; }
  }

  lemma AnswersGrow(f: Fleet, a: Action)
    requires Can(f, a)
    ensures Do(f, a).answers == f.answers || (Answers(f, a) && |Do(f, a).answers| == |f.answers| + 1)
    ensures f.answers <= Do(f, a).answers
  {
  }

  /** Every refusal ever answered, in any run: it was given at one step, and it is the INSERT's own reason
      exactly unless that step misnames. */
  lemma RefusalsTruthful(trace: seq<Fleet>, actions: seq<Action>, k: nat, n: nat) returns (i: nat)
    requires Run(trace, actions) && k < |trace| && n < |trace[k].answers|
    ensures i < k && |trace[i].answers| == n && Answers(trace[i], actions[i])
    ensures trace[k].answers[n].given == trace[k].answers[n].why <==> !Misnames(trace[i], actions[i])
    ensures Misnames(trace[i], actions[i]) ==> trace[k].answers[n].given.SessionUnseen? && trace[k].answers[n].settled
  {
    i := AnsweredAt(trace, actions, k, n);
    RunInv(trace, actions, i);
    AnswerExact(trace[i], actions[i]);
  }

  // --- locks, machines and sessions over a run -----------------------------------------------

  /** The row lock goes with the transaction: it commits, rolls back, or answers. */
  predicate Unlocks(f: Fleet, a: Action, m: nat) {
    || a == Commit(m) || a == Abort(m) || a == AskOpen(m)
    || (a == AskHeld(m) && m in f.txns && Held(f.books.leases, m, f.txns[m].project))
  }

  lemma LockStep(f: Fleet, a: Action, m: nat)
    requires Can(f, a)
    ensures m in Do(f, a).txns <==> (a.Lock? && a.m == m) || (m in f.txns && !Unlocks(f, a, m))
  {
  }

  ghost predicate LockedSince(trace: seq<Fleet>, actions: seq<Action>, i: nat, k: nat, m: nat) {
    i < k < |trace| == |actions| + 1 && actions[i].Lock? && actions[i].m == m
    && forall j :: i < j < k ==> !Unlocks(trace[j], actions[j], m)
  }

  /** In every run: a machine's row is locked exactly since an acquire took it and until that acquire committed,
      rolled back or answered; no acquire leaves it locked. */
  lemma {:induction false} LockedExactly(trace: seq<Fleet>, actions: seq<Action>, k: nat, m: nat)
    requires Run(trace, actions) && k < |trace|
    ensures m in trace[k].txns <==> exists i: nat :: LockedSince(trace, actions, i, k, m)
  {
    if k > 0 {
      var n := k - 1;
      LockedExactly(trace, actions, n, m);
      LockStep(trace[n], actions[n], m);
      if actions[n].Lock? && actions[n].m == m { assert LockedSince(trace, actions, n, k, m); }
      if m in trace[n].txns && !Unlocks(trace[n], actions[n], m) {
        var i: nat :| LockedSince(trace, actions, i, n, m);
        assert LockedSince(trace, actions, i, k, m);
      }
      if i: nat :| LockedSince(trace, actions, i, k, m) && i < k - 1 { assert LockedSince(trace, actions, i, n, m); }
    }
  }

  predicate OwnedBy(f: Fleet, m: nat, owner: Option<nat>) {
    m in f.machines && f.machines[m].owner == owner
  }

  ghost predicate EnrolledFor(actions: seq<Action>, k: nat, m: nat, owner: Option<nat>) {
    exists i :: 0 <= i < k && i < |actions|
                && actions[i].Enrol? && actions[i].m == m && actions[i].machine.owner == owner
  }

  ghost predicate OpenedFor(actions: seq<Action>, k: nat, session: nat, project: nat) {
    exists i :: 0 <= i < k && i < |actions| && actions[i] == OpenSession(session, project)
  }

  /** In every run: a machine belongs to whom it was enrolled for, and a session to the project that opened it. */
  lemma {:induction false} OwnersAre(
    trace: seq<Fleet>, actions: seq<Action>, k: nat, m: nat, owner: Option<nat>, session: nat, project: nat)
    requires Run(trace, actions) && k < |trace|
    ensures OwnedBy(trace[k], m, owner) <==> OwnedBy(trace[0], m, owner) || EnrolledFor(actions, k, m, owner)
    ensures SessionSeen(trace[k].sessions, session, project)
            <==> SessionSeen(trace[0].sessions, session, project) || OpenedFor(actions, k, session, project)
  {
    if k > 0 {
      OwnersAre(trace, actions, k - 1, m, owner, session, project);
      OwnerStep(trace[k - 1], actions[k - 1], m, owner, session, project);
    }
  }

  lemma OwnerStep(f: Fleet, a: Action, m: nat, owner: Option<nat>, session: nat, project: nat)
    requires Can(f, a)
    ensures OwnedBy(Do(f, a), m, owner)
            <==> OwnedBy(f, m, owner) || (a.Enrol? && a.m == m && a.machine.owner == owner)
    ensures SessionSeen(Do(f, a).sessions, session, project)
            <==> SessionSeen(f.sessions, session, project) || a == OpenSession(session, project)
  {
  }
}
