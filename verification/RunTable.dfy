/** The run transition table and what terminal means for it (packages/state-machines/run.go,
    statemachine.go). */
module RunTable {
  import opened Base

  datatype RunState =
    | Queued | Provisioning | Running | Waiting
    | Completed | Failed | Canceled | TimedOut | BudgetExceeded

  datatype RunCommand =
    | Provision | Start | Wait | Resume | Complete | Fail | Cancel | Timeout | ExhaustBudget

  datatype Row = Row(from: RunState, command: RunCommand, to: RunState)

  const TABLE: seq<Row> := [
    Row(Queued, Provision, Provisioning),
    Row(Provisioning, Start, Running),
    Row(Running, Wait, Waiting),
    Row(Waiting, Resume, Running),
    Row(Running, Complete, Completed),
    Row(Queued, Cancel, Canceled),
    Row(Provisioning, Cancel, Canceled),
    Row(Running, Cancel, Canceled),
    Row(Waiting, Cancel, Canceled),
    Row(Queued, Fail, Failed),
    Row(Provisioning, Fail, Failed),
    Row(Running, Fail, Failed),
    Row(Waiting, Fail, Failed),
    Row(Queued, Timeout, TimedOut),
    Row(Running, Timeout, TimedOut),
    Row(Waiting, Timeout, TimedOut),
    Row(Running, ExhaustBudget, BudgetExceeded),
    Row(Waiting, ExhaustBudget, BudgetExceeded)]

  predicate Terminal(s: RunState) {
    s.Completed? || s.Failed? || s.Canceled? || s.TimedOut? || s.BudgetExceeded?
  }

  /** What the table says, as a function of state and command. */
  function Next(s: RunState, c: RunCommand): Option<RunState> {
    match c
    case Provision => if s.Queued? then Some(Provisioning) else None
    case Start => if s.Provisioning? then Some(Running) else None
    case Wait => if s.Running? then Some(Waiting) else None
    case Resume => if s.Waiting? then Some(Running) else None
    case Complete => if s.Running? then Some(Completed) else None
    case Fail => if Terminal(s) then None else Some(Failed)
    case Cancel => if Terminal(s) then None else Some(Canceled)
    case Timeout => if Terminal(s) || s.Provisioning? then None else Some(TimedOut)
    case ExhaustBudget => if s.Running? || s.Waiting? then Some(BudgetExceeded) else None
  }

  /** `Apply`: the first row that matches, searched for in order. */
  method Apply(s: RunState, c: RunCommand) returns (to: Option<RunState>)
    ensures to == Next(s, c)
  {
    for i := 0 to |TABLE|
      invariant forall k :: 0 <= k < i ==> !(TABLE[k].from == s && TABLE[k].command == c)
    {
      if TABLE[i].from == s && TABLE[i].command == c {
        RowIsNext(i);
        return Some(TABLE[i].to);
      }
    }
    NextHasRow(s, c);
    return None;
  }

  lemma RowIsNext(i: nat)
    requires i < |TABLE|
    ensures Next(TABLE[i].from, TABLE[i].command) == Some(TABLE[i].to)
  {
  }

  lemma NextHasRow(s: RunState, c: RunCommand)
    ensures Next(s, c).Some? ==> exists i :: 0 <= i < |TABLE| && TABLE[i].from == s && TABLE[i].command == c
  {
    if Next(s, c).Some? {
      var i := Index(s, c);
      assert TABLE[i].from == s && TABLE[i].command == c;
    }
  }

  function Index(s: RunState, c: RunCommand): nat
    requires Next(s, c).Some?
    ensures Index(s, c) < |TABLE|
  {
    match c
    case Provision => 0
    case Start => 1
    case Wait => 2
    case Resume => 3
    case Complete => 4
    case Cancel => if s.Queued? then 5 else if s.Provisioning? then 6 else if s.Running? then 7 else 8
    case Fail => if s.Queued? then 9 else if s.Provisioning? then 10 else if s.Running? then 11 else 12
    case Timeout => if s.Queued? then 13 else if s.Running? then 14 else 15
    case ExhaustBudget => if s.Running? then 16 else 17
  }

  /** The shape of the table: a run is provisioned, started, and from then on only waits and resumes until it
      ends; it completes only from running, and while it has not ended it can be failed and canceled. */
  lemma TableShape(s: RunState, c: RunCommand)
    ensures Next(s, c) == Some(Provisioning) <==> s == Queued && c == Provision
    ensures Next(s, c) == Some(Running) <==> (s == Provisioning && c == Start) || (s == Waiting && c == Resume)
    ensures Next(s, c) == Some(Waiting) <==> s == Running && c == Wait
    ensures Next(s, c) == Some(Completed) <==> s == Running && c == Complete
    ensures Next(s, c) == Some(Failed) <==> s in {Queued, Provisioning, Running, Waiting} && c == Fail
    ensures Next(s, c) == Some(Canceled) <==> s in {Queued, Provisioning, Running, Waiting} && c == Cancel
    ensures Next(s, c) == Some(TimedOut) <==> s in {Queued, Running, Waiting} && c == Timeout
    ensures Next(s, c) == Some(BudgetExceeded) <==> s in {Running, Waiting} && c == ExhaustBudget
    ensures Next(s, c) != Some(Queued)
  {
  }

  /** `TerminalStates`: reached by some row and left by none. */
  lemma TerminalIsAbsorbing(s: RunState)
    ensures Terminal(s) <==> forall c :: Next(s, c).None?
    ensures Terminal(s) ==> exists from, c :: Next(from, c) == Some(s)
  {
    if !Terminal(s) { assert Next(s, Fail).Some?; }
    match s
    case Completed => assert Next(Running, Complete) == Some(s);
    case Failed => assert Next(Running, Fail) == Some(s);
    case Canceled => assert Next(Running, Cancel) == Some(s);
    case TimedOut => assert Next(Running, Timeout) == Some(s);
    case BudgetExceeded => assert Next(Running, ExhaustBudget) == Some(s);
    case _ =>
  }
}
