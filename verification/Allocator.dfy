/** The allocator's own methods, as one caller runs them (packages/coordinator/occupancy.go,
    occupancy_billing.go). Each is proved against the function it computes on the tables; those functions are
    then proved to be runs of the concurrent steps in Fleet and Holds. */
module Allocation {
  import opened Base
  import opened Books
  import opened Fleet
  import opened Holds

  datatype Acquisition =
    | Granted(id: nat)
    | MachineUnavailable
    | HeldByAnotherTenant
    | MachineAtCapacity(open: nat, capacity: nat)
    | SessionUnavailable

  datatype Closing = NotFound | AlreadyClosed | ClosedHere

  function Row(f: Fleet, m: nat, project: nat, session: nat): Lease {
    Lease(project, m, session, f.books.clock, f.books.clock, None)
  }

  /** An acquire with nothing between its statements. */
  function AcquireAlone(f: Fleet, m: nat, project: nat, session: nat): (Fleet, Acquisition) {
    if m !in f.machines || !Visible(f.machines[m], project) then (f, MachineUnavailable)
    else if Admits(f, m, project, session) then
      (f.(books := Acquired(f.books, Row(f, m, project, session))), Granted(|f.books.leases|))
    else (f, match Why(f.books.leases, m, f.machines[m].capacity, project)
             case HeldByAnother => HeldByAnotherTenant
             case AtCapacity => MachineAtCapacity(OpenOn(f.books.leases, m), f.machines[m].capacity)
             case SessionUnseen => SessionUnavailable)
  }

  function HoldAlone(f: Fleet, m: nat, project: nat, session: nat): (Fleet, Acquisition) {
    match Start(f.books.leases, session, project, m)
    case Touching(i) => (f.(books := Touched(f.books, i, project)), Granted(i))
    case Leaving(i, _) => AcquireAlone(f.(books := Settled(f.books, i, project, Lost)), m, project, session)
    case _ => AcquireAlone(f, m, project, session)
  }

  class Allocator {
    var machines: map<nat, Machine>
    var sessions: map<nat, nat>
    var leases: seq<Lease>
    var ledger: seq<Entry>
    var clock: nat

    constructor (machines: map<nat, Machine>, sessions: map<nat, nat>)
      ensures View() == Fleet(machines, sessions, Books([], [], 0), map[], [])
    {
      this.machines, this.sessions := machines, sessions;
      leases, ledger, clock := [], [], 0;
    }

    ghost function View(): Fleet
      reads this
    {
      Fleet(machines, sessions, Books(leases, ledger, clock), map[], [])
    }

    method CountOpen(m: nat) returns (n: nat)
      ensures n == OpenOn(leases, m)
    {
      n := 0;
      for i := 0 to |leases|
        invariant n == OpenOn(leases[..i], m)
      {
        assert leases[..i + 1][..i] == leases[..i];
        if leases[i].close.None? && leases[i].machine == m { n := n + 1; }
      }
      assert leases[..|leases|] == leases;
    }

    method HeldByOther(m: nat, project: nat) returns (held: bool)
      ensures held == Held(leases, m, project)
    {
      held := false;
      for i := 0 to |leases|
        invariant held == exists k :: 0 <= k < i && OpenHold(leases[k], m) && leases[k].project != project
      {
        if leases[i].close.None? && leases[i].machine == m && leases[i].project != project { held := true; }
      }
    }

    /** The machine as this project may use it, another project's hold on it, and no room on it. */
    predicate Offered(m: nat, project: nat)
      reads this
    {
      m in machines && (machines[m].owner.None? || machines[m].owner == Some(project))
    }

    predicate Taken(m: nat, project: nat)
      reads this
    {
      exists i :: 0 <= i < |leases| && leases[i].close.None? && leases[i].machine == m && leases[i].project != project
    }

    predicate Full(m: nat)
      reads this
      requires m in machines
    {
      0 < machines[m].capacity <= |OpenRows(leases, m)|
    }

    method AcquireLease(project: nat, session: nat, m: nat) returns (r: Acquisition)
      modifies this`leases
      ensures (View(), r) == AcquireAlone(old(View()), m, project, session)
      ensures r.MachineUnavailable? <==> !old(Offered(m, project))
      ensures r.HeldByAnotherTenant? <==> old(Offered(m, project) && Taken(m, project))
      ensures r.MachineAtCapacity? <==> old(Offered(m, project) && !Taken(m, project) && Full(m))
      ensures r.MachineAtCapacity? ==> r.open == |OpenRows(leases, m)| && r.capacity == machines[m].capacity
      ensures r.Granted? <==> old(Offered(m, project) && !Taken(m, project) && !Full(m))
                              && session in sessions && sessions[session] == project
      ensures r.Granted? ==> r.id == |old(leases)|
                             && leases == old(leases) + [Lease(project, m, session, clock, clock, None)]
      ensures !r.Granted? ==> leases == old(leases)
    {
      if m !in machines || !(machines[m].owner.None? || machines[m].owner.value == project) {
        return MachineUnavailable;
      }
      var capacity := machines[m].capacity;
      var open := CountOpen(m);
      OpenOnCounts(leases, m);
      var held := HeldByOther(m, project);
      if session in sessions && sessions[session] == project && (capacity == 0 || open < capacity) && !held {
        r := Granted(|leases|);
        leases := leases + [Lease(project, m, session, clock, clock, None)];
        return;
      }
      if held { return HeldByAnotherTenant; }
      if !HasRoom(open, capacity) { return MachineAtCapacity(open, capacity); }
      return SessionUnavailable;
    }

    /** A touch of a hold already released changes nothing and is not an error; of an unknown one it is. */
    method TouchLease(project: nat, id: nat) returns (known: bool)
      modifies this`leases
      ensures View() == old(View()).(books := Touched(old(View()).books, id, project))
      ensures known <==> id < |old(leases)| && old(leases)[id].project == project
      ensures leases == if known && old(leases)[id].close.None?
                        then old(leases)[id := old(leases)[id].(activity := clock)] else old(leases)
    {
      known := id < |leases| && leases[id].project == project;
      if known && leases[id].close.None? {
        leases := leases[id := leases[id].(activity := clock)];
      }
    }

    method HasLedgerRow(id: nat) returns (found: bool)
      ensures found == HasEntry(ledger, id)
    {
      found := false;
      for k := 0 to |ledger|
        invariant found == exists j :: 0 <= j < k && ledger[j].lease == id
      {
        if ledger[k].lease == id { found := true; }
      }
    }

    method SettleUsage(id: nat, quantity: int)
      modifies this`ledger
      ensures ledger == Recorded(old(ledger), id, quantity)
      ensures var unbilled := forall k :: 0 <= k < |old(ledger)| ==> old(ledger)[k].lease != id;
        ledger == if quantity > 0 && unbilled then old(ledger) + [Entry(id, quantity)] else old(ledger)
    {
      if quantity <= 0 { return; }
      var found := HasLedgerRow(id);
      if !found { ledger := ledger + [Entry(id, quantity)]; }
    }

    /** Closing and billing are one transaction, and only the call that closes a hold bills it. */
    method SettleOccupancy(project: nat, id: nat, reason: Reason) returns (r: Closing)
      modifies this`leases, this`ledger
      ensures View() == old(View()).(books := Settled(old(View()).books, id, project, reason))
      ensures r.NotFound? <==> !Owns(old(View()).books, id, project)
      ensures r.ClosedHere? <==> Owns(old(View()).books, id, project) && Open(old(leases)[id])
      ensures r.ClosedHere? ==> leases == old(leases)[id := old(leases)[id].(close := Some(Close(clock, reason)))]
      ensures r.ClosedHere? ==>
        var q := (if reason.Idle? then old(leases)[id].activity else clock) - old(leases)[id].started;
        var unbilled := forall k :: 0 <= k < |old(ledger)| ==> old(ledger)[k].lease != id;
        ledger == if q > 0 && unbilled then old(ledger) + [Entry(id, q)] else old(ledger)
      ensures !r.ClosedHere? ==> leases == old(leases) && ledger == old(ledger)
    {
      if id >= |leases| || leases[id].project != project { return NotFound; }
      if leases[id].close.Some? { return AlreadyClosed; }
      leases := leases[id := leases[id].(close := Some(Close(clock, reason)))];
      SettleUsage(id, Billed(leases[id]));
      return ClosedHere;
    }

    /** The loop keeps the last open row it meets. */
    method OpenOccupancy(project: nat, session: nat) returns (found: Option<nat>)
      ensures found == LastOpen(leases, session, project)
    {
      found := None;
      for i := 0 to |leases|
        invariant found == LastOpen(leases[..i], session, project)
      {
        assert leases[..i + 1][..i] == leases[..i];
        if leases[i].close.None? && leases[i].session == session && leases[i].project == project {
          found := Some(i);
        }
      }
      assert leases[..|leases|] == leases;
    }

    method HoldMachine(project: nat, session: nat, m: nat) returns (r: Acquisition)
      modifies this`leases, this`ledger
      ensures (View(), r) == HoldAlone(old(View()), m, project, session)
      ensures var found := LastOpen(old(leases), session, project);
        && |leases| >= |old(leases)|
        && (found.Some? && old(leases)[found.value].machine == m ==>
              r == Granted(found.value)
              && leases == old(leases)[found.value := old(leases)[found.value].(activity := clock)])
        && (found.Some? && old(leases)[found.value].machine != m ==>
              leases[..|old(leases)|]
              == old(leases)[found.value := old(leases)[found.value].(close := Some(Close(clock, Lost)))])
        && (found.None? ==> leases[..|old(leases)|] == old(leases))
        && ((found.Some? ==> old(leases)[found.value].machine != m) && r.Granted? ==>
              r.id == |old(leases)| && leases[r.id..] == [Lease(project, m, session, clock, clock, None)])
    {
      var open := OpenOccupancy(project, session);
      if open.Some? && leases[open.value].machine == m {
        var _ := TouchLease(project, open.value);
        return Granted(open.value);
      }
      if open.Some? {
        var _ := SettleOccupancy(project, open.value, Lost);
      }
      r := AcquireLease(project, session, m);
    }

    method Wait(d: nat)
      modifies this`clock
      ensures View() == old(View()).(books := Waited(old(View()).books, d))
    {
      clock := clock + d;
    }
  }

  // --- the methods are runs of the concurrent system -----------------------------------------

  /** Undisturbed, lock, insert and commit (or the two questions) end where AcquireAlone says. */
  lemma AcquireIsARun(f: Fleet, m: nat, project: nat, session: nat)
    requires m in f.machines && Visible(f.machines[m], project) && m !in f.txns
    ensures var f1 := Do(f, Lock(m, project, session));
      var f2 := Do(f1, Insert(m));
      if Admits(f, m, project, session)
      then Do(f2, Commit(m)) == AcquireAlone(f, m, project, session).0
      else
        var why := Why(f.books.leases, m, f.machines[m].capacity, project);
        var f3 := Do(f2, AskHeld(m));
        var end := if why.HeldByAnother? then f3 else Do(f3, AskOpen(m));
        end == f.(answers := f.answers + [Answer(why, why, false)])
  {
    var f1 := Do(f, Lock(m, project, session));
    var f2 := Do(f1, Insert(m));
    assert (f.txns[m := f2.txns[m]]) - {m} == f.txns;
    if !Admits(f, m, project, session) {
      var f3 := Do(f2, AskHeld(m));
      if m in f3.txns { assert f3.txns - {m} == f.txns; }
    }
  }

  /** Nothing in flight, every invariant in force, and the granted hold is the session's one open hold. */
  ghost predicate Rests(g: Fleet, r: Acquisition, m: nat, project: nat, session: nat) {
    && Inv(g) && Disjoint(g.books.leases) && g.txns == map[]
    && (r.Granted? ==> LastOpen(g.books.leases, session, project) == Some(r.id) && g.books.leases[r.id].machine == m)
  }

  /** A hold taken alone leaves the session with exactly one open hold, the granted one, and keeps every
      invariant of the desk. */
  lemma HoldKeeps(f: Fleet, m: nat, project: nat, session: nat)
    requires Inv(f) && Disjoint(f.books.leases) && f.txns == map[]
    ensures var (g, r) := HoldAlone(f, m, project, session); Rests(g, r, m, project, session)
  {
    var d := Desk(f, map[]);
    MoveInv(d, Begin(session, project, m));
    var d1 := Moved(d, Begin(session, project, m));
    match Start(f.books.leases, session, project, m)
    case Touching(i) => KeepRests(d1, i, m, project, session);
    case Leaving(i, _) => LeaveRests(d1, i, m, project, session);
    case Acquiring(_) => AcquireKeeps(d1, m, project, session);
  }

  lemma KeepRests(d: Desk, i: nat, m: nat, project: nat, session: nat)
    requires DeskInv(d) && d.fleet.txns == map[]
    requires session in d.holds && d.holds[session] == Hold(project, Touching(i))
    requires LastOpen(d.fleet.books.leases, session, project) == Some(i) && d.fleet.books.leases[i].machine == m
    ensures Rests(d.fleet.(books := Touched(d.fleet.books, i, project)), Granted(i), m, project, session)
  {
    MoveInv(d, Keep(session));
    TouchKeepsLast(d.fleet.books, i, session, project);
  }

  lemma LeaveRests(d: Desk, i: nat, m: nat, project: nat, session: nat)
    requires DeskInv(d) && d.fleet.txns == map[]
    requires session in d.holds && d.holds[session] == Hold(project, Leaving(i, m))
    requires Owns(d.fleet.books, i, project) && Open(d.fleet.books.leases[i])
    ensures var left := d.fleet.(books := Settled(d.fleet.books, i, project, Lost));
      var (g, r) := AcquireAlone(left, m, project, session);
      Rests(g, r, m, project, session)
  {
    MoveInv(d, Leave(session));
    var d2 := Moved(d, Leave(session));
    assert d2.fleet == d.fleet.(books := Settled(d.fleet.books, i, project, Lost));
    AcquireKeeps(d2, m, project, session);
  }

  lemma TouchKeepsLast(b: Books, i: nat, session: nat, project: nat)
    requires LastOpen(b.leases, session, project) == Some(i)
    ensures LastOpen(Touched(b, i, project).leases, session, project) == Some(i)
  {
    var later := Touched(b, i, project).leases;
    assert OpenFor(later[i], session, project);
    var found := LastOpen(later, session, project).value;
    assert OpenFor(b.leases[found], session, project);
  }

  lemma AcquireKeeps(d: Desk, m: nat, project: nat, session: nat)
    requires DeskInv(d) && d.fleet.txns == map[]
    requires session in d.holds && d.holds[session] == Hold(project, Pc.Acquiring(m))
    ensures var (g, r) := AcquireAlone(d.fleet, m, project, session); Rests(g, r, m, project, session)
  {
    var f := d.fleet;
    if m in f.machines && Visible(f.machines[m], project) && Admits(f, m, project, session) {
      AcquireIsARun(f, m, project, session);
      var d1 := Moved(d, Place(session));
      MoveInv(d, Place(session));
      var d2 := Moved(d1, World(Insert(m)));
      MoveInv(d1, World(Insert(m)));
      MoveInv(d2, World(Commit(m)));
      assert d1.fleet == Do(f, Lock(m, project, session)) && d2.fleet == Do(d1.fleet, Insert(m));
    }
  }

  // --- two places where a stronger reading fails ---------------------------------------------

  /** A refusal can be misnamed. On any machine exactly full of the caller's own holds the INSERT writes
      nothing; if one of those holds is settled before the count is read back, the caller is told that its
      session, which it can see, is unavailable. */
  lemma SettleCanMislead(f: Fleet, m: nat, project: nat, session: nat, i: nat, reason: Reason)
    requires Inv(f) && Can(f, Lock(m, project, session)) && SessionSeen(f.sessions, session, project)
    requires 0 < f.machines[m].capacity == OpenOn(f.books.leases, m) && !Held(f.books.leases, m, project)
    requires Owns(f.books, i, project) && OpenHold(f.books.leases[i], m)
    ensures var f2 := Do(Do(f, Lock(m, project, session)), Insert(m));
      var f4 := Do(Do(f2, SettleHold(i, project, reason)), AskHeld(m));
      Do(f4, AskOpen(m)).answers == f.answers + [Answer(SessionUnseen, AtCapacity, true)]
  {
    var f2 := Do(Do(f, Lock(m, project, session)), Insert(m));
    assert f2.txns[m].phase == Refused(AtCapacity, false, false);
    var f3 := Do(f2, SettleHold(i, project, reason));
    OpenOnUpdate(f.books.leases, i, f3.books.leases[i], m);
    HeldOnlyEnds(f2, SettleHold(i, project, reason), m, project);
  }

  predicate Grants(f: Fleet, m: nat, project: nat, session: nat) {
    m in f.machines && Visible(f.machines[m], project) && Admits(f, m, project, session)
  }

  /** Two calls for one session that both look before either acquires, on two machines. */
  predicate HoldsTwice(f: Fleet, m: nat, n: nat, session: nat, project: nat) {
    && Start(f.books.leases, session, project, m) == Pc.Acquiring(m)
    && Start(f.books.leases, session, project, n) == Pc.Acquiring(n)
    && var (g, r) := AcquireAlone(f, m, project, session);
    && var (h, q) := AcquireAlone(g, n, project, session);
    && r.Granted? && q.Granted? && r.id != q.id && r.id < |h.books.leases| && q.id < |h.books.leases|
    && OpenFor(h.books.leases[r.id], session, project) && OpenFor(h.books.leases[q.id], session, project)
  }

  /** A hold placed on one machine changes nothing about what another admits. */
  lemma ElsewhereAdmits(f: Fleet, row: Lease, m: nat, project: nat, session: nat)
    requires m in f.machines && row.machine != m
    ensures Admits(f.(books := Acquired(f.books, row)), m, project, session) == Admits(f, m, project, session)
  {
    var leases := f.books.leases;
    OpenOnAppend(leases, row, m);
    if Held(leases, m, project) {
      var i :| 0 <= i < |leases| && OpenHold(leases[i], m) && leases[i].project != project;
      assert OpenHold((leases + [row])[i], m);
    }
  }

  /** Without the writer lease two calls for one session can both find it holding nothing and end up holding
      two machines at once: exactly where it holds nothing and both machines would take it. */
  lemma UnserialisedHoldsTwice(f: Fleet, m: nat, n: nat, session: nat, project: nat)
    requires m != n
    ensures HoldsTwice(f, m, n, session, project)
            <==> LastOpen(f.books.leases, session, project).None?
                 && Grants(f, m, project, session) && Grants(f, n, project, session)
  {
    if Grants(f, m, project, session) && n in f.machines {
      ElsewhereAdmits(f, Row(f, m, project, session), n, project, session);
    }
  }
}
