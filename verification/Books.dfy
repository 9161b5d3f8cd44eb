/** Machine holds and what they cost (packages/coordinator/occupancy_billing.go, storage/queries/leases.sql).
    A hold's id is its position in `leases`; a ledger entry's dedupe key is the hold's id. */
module Books {
  import opened Base

  datatype Reason = Idle | Lost | Other
  datatype Close = Close(at: nat, reason: Reason)

  /** One row of runner_leases. */
  datatype Lease = Lease(
    project: nat, machine: nat, session: nat, started: nat, activity: nat, close: Option<Close>)

  /** One machine.minutes row of usage_ledger. */
  datatype Entry = Entry(lease: nat, quantity: nat)

  datatype Books = Books(leases: seq<Lease>, ledger: seq<Entry>, clock: nat)

  predicate Open(l: Lease) {
    l.close.None?
  }

  /** Closed by idle: to the last activity. Any other way: to the release. Open: nothing settled. */
  function Billed(l: Lease): int {
    match l.close
    case None => 0
    case Some(Close(at, Idle)) => l.activity - l.started
    case Some(Close(at, _)) => at - l.started
  }

  // --- the transactions ----------------------------------------------------------------------

  predicate Owns(b: Books, i: nat, project: nat) {
    i < |b.leases| && b.leases[i].project == project
  }

  function Acquired(b: Books, row: Lease): Books {
    b.(leases := b.leases + [row])
  }

  /** TouchLease: moves the last activity of an open hold, and of no other. */
  function Touched(b: Books, i: nat, project: nat): Books {
    if Owns(b, i, project) && Open(b.leases[i])
    then b.(leases := b.leases[i := b.leases[i].(activity := b.clock)])
    else b
  }

  /** settleUsage: a quantity that is not positive is skipped, a key already there is left alone. */
  function Recorded(ledger: seq<Entry>, i: nat, quantity: int): seq<Entry> {
    if quantity <= 0 || HasEntry(ledger, i) then ledger else ledger + [Entry(i, quantity)]
  }

  predicate HasEntry(ledger: seq<Entry>, i: nat) {
    exists k :: 0 <= k < |ledger| && ledger[k].lease == i
  }

  /** SettleOccupancy: the release is write-once, and the bill lands with it. */
  function Settled(b: Books, i: nat, project: nat, reason: Reason): Books {
    if Owns(b, i, project) && Open(b.leases[i]) then
      var closed := b.leases[i].(close := Some(Close(b.clock, reason)));
      b.(leases := b.leases[i := closed], ledger := Recorded(b.ledger, i, Billed(closed)))
    else b
  }

  function Waited(b: Books, d: nat): Books {
    b.(clock := b.clock + d)
  }

  // --- what the books always satisfy ---------------------------------------------------------

  predicate Timely(l: Lease, clock: nat) {
    l.started <= l.activity <= clock && (l.close.Some? ==> l.activity <= l.close.value.at <= clock)
  }

  predicate AllTimely(b: Books) {
    forall i :: 0 <= i < |b.leases| ==> Timely(b.leases[i], b.clock)
  }

  predicate OncePerLease(ledger: seq<Entry>) {
    forall j, k :: 0 <= j < k < |ledger| ==> ledger[j].lease != ledger[k].lease
  }

  /** An entry is some closed hold's bill, exactly. */
  predicate EntryTrue(leases: seq<Lease>, e: Entry) {
    e.lease < |leases| && !Open(leases[e.lease]) && e.quantity == Billed(leases[e.lease]) > 0
  }

  predicate EntriesTrue(leases: seq<Lease>, ledger: seq<Entry>) {
    forall k :: 0 <= k < |ledger| ==> EntryTrue(leases, ledger[k])
  }

  predicate BillsEntered(leases: seq<Lease>, ledger: seq<Entry>) {
    forall i :: 0 <= i < |leases| && Billed(leases[i]) > 0 ==> HasEntry(ledger, i)
  }

  ghost predicate Balanced(b: Books) {
    AllTimely(b) && OncePerLease(b.ledger) && EntriesTrue(b.leases, b.ledger) && BillsEntered(b.leases, b.ledger)
    && Total(b.ledger) == SumBilled(b.leases)
  }

  function Total(ledger: seq<Entry>): int {
    if ledger == [] then 0 else Total(ledger[..|ledger| - 1]) + ledger[|ledger| - 1].quantity
  }

  function SumBilled(leases: seq<Lease>): int {
    if leases == [] then 0 else SumBilled(leases[..|leases| - 1]) + Billed(leases[|leases| - 1])
  }

  lemma {:induction false} SumUpdate(leases: seq<Lease>, i: nat, l: Lease)
    requires i < |leases|
    ensures SumBilled(leases[i := l]) == SumBilled(leases) - Billed(leases[i]) + Billed(l)
  {
    var n := |leases| - 1;
    if i == n {
      assert leases[i := l][..n] == leases[..n];
    } else {
      assert leases[i := l][..n] == leases[..n][i := l];
      SumUpdate(leases[..n], i, l);
    }
  }

  lemma BillNonNegative(l: Lease, clock: nat)
    requires Timely(l, clock)
    ensures Billed(l) >= 0
  {
  }

  lemma AcquireKeepsEntries(leases: seq<Lease>, ledger: seq<Entry>, row: Lease)
    requires EntriesTrue(leases, ledger) && BillsEntered(leases, ledger) && Open(row)
    ensures EntriesTrue(leases + [row], ledger) && BillsEntered(leases + [row], ledger)
  {
    var out := leases + [row];
    forall k | 0 <= k < |ledger| ensures EntryTrue(out, ledger[k]) {
      assert EntryTrue(leases, ledger[k]);
    }
  }

  lemma AcquireBalanced(b: Books, row: Lease)
    requires Balanced(b) && Open(row) && Timely(row, b.clock)
    ensures Balanced(Acquired(b, row))
  {
    AcquireKeepsEntries(b.leases, b.ledger, row);
    assert (b.leases + [row])[..|b.leases|] == b.leases;
  }

  /** Replacing an open row by one that bills the same leaves every entry as it was. */
  lemma TouchKeepsEntries(leases: seq<Lease>, ledger: seq<Entry>, i: nat, row: Lease)
    requires EntriesTrue(leases, ledger) && BillsEntered(leases, ledger)
    requires i < |leases| && Open(leases[i]) && Open(row)
    ensures EntriesTrue(leases[i := row], ledger) && BillsEntered(leases[i := row], ledger)
  {
    forall k | 0 <= k < |ledger| ensures EntryTrue(leases[i := row], ledger[k]) {
      assert EntryTrue(leases, ledger[k]);
    }
  }

  lemma TouchBalanced(b: Books, i: nat, project: nat)
    requires Balanced(b)
    ensures Balanced(Touched(b, i, project))
  {
    if Owns(b, i, project) && Open(b.leases[i]) {
      var row := b.leases[i].(activity := b.clock);
      TouchKeepsEntries(b.leases, b.ledger, i, row);
      SumUpdate(b.leases, i, row);
    }
  }

  lemma WaitBalanced(b: Books, d: nat)
    requires Balanced(b)
    ensures Balanced(Waited(b, d))
  {
  }

  lemma RecordOnce(ledger: seq<Entry>, i: nat, quantity: int)
    requires OncePerLease(ledger) && !HasEntry(ledger, i)
    ensures OncePerLease(Recorded(ledger, i, quantity))
    ensures Total(Recorded(ledger, i, quantity)) == Total(ledger) + (if quantity > 0 then quantity else 0)
    ensures forall j: nat ::
              HasEntry(Recorded(ledger, i, quantity), j) <==> HasEntry(ledger, j) || (j == i && quantity > 0)
  {
    if quantity > 0 {
      var out := ledger + [Entry(i, quantity)];
      assert out[..|ledger|] == ledger && out[|ledger|].lease == i;
      forall j: nat | HasEntry(ledger, j) ensures HasEntry(out, j) {
        var k :| 0 <= k < |ledger| && ledger[k].lease == j;
        assert out[k].lease == j;
      }
    }
  }

  lemma SettleKeepsEntries(leases: seq<Lease>, ledger: seq<Entry>, i: nat, row: Lease)
    requires EntriesTrue(leases, ledger) && BillsEntered(leases, ledger) && OncePerLease(ledger)
    requires i < |leases| && Open(leases[i]) && !Open(row)
    ensures EntriesTrue(leases[i := row], Recorded(ledger, i, Billed(row)))
    ensures BillsEntered(leases[i := row], Recorded(ledger, i, Billed(row)))
    ensures !HasEntry(ledger, i)
  {
    var out := Recorded(ledger, i, Billed(row));
    forall k | 0 <= k < |ledger| ensures ledger[k].lease != i {
      assert EntryTrue(leases, ledger[k]);
    }
    RecordOnce(ledger, i, Billed(row));
    forall k | 0 <= k < |out| ensures EntryTrue(leases[i := row], out[k]) {
      if k < |ledger| { assert EntryTrue(leases, ledger[k]); }
    }
  }

  lemma SettleBalanced(b: Books, i: nat, project: nat, reason: Reason)
    requires Balanced(b)
    ensures Balanced(Settled(b, i, project, reason))
  {
    if Owns(b, i, project) && Open(b.leases[i]) {
      var row := b.leases[i].(close := Some(Close(b.clock, reason)));
      SettleKeepsEntries(b.leases, b.ledger, i, row);
      RecordOnce(b.ledger, i, Billed(row));
      SumUpdate(b.leases, i, row);
      BillNonNegative(row, b.clock);
    }
  }

  /** Balanced books, read out: a hold has an entry exactly when it is closed with time to bill. */
  lemma EntryIff(b: Books, i: nat)
    requires Balanced(b) && i < |b.leases|
    ensures HasEntry(b.ledger, i) <==> !Open(b.leases[i]) && Billed(b.leases[i]) > 0
  {
    if HasEntry(b.ledger, i) {
      var k :| 0 <= k < |b.ledger| && b.ledger[k].lease == i;
      assert EntryTrue(b.leases, b.ledger[k]);
    }
  }

  // --- every run -----------------------------------------------------------------------------

  datatype Event =
    | Acquire(row: Lease)
    | Touch(i: nat, project: nat)
    | Settle(i: nat, project: nat, reason: Reason)
    | Wait(d: nat)

  predicate Possible(b: Books, e: Event) {
    e.Acquire? ==> Open(e.row) && Timely(e.row, b.clock)
  }

  function After(b: Books, e: Event): Books {
    match e
    case Acquire(row) => Acquired(b, row)
    case Touch(i, project) => Touched(b, i, project)
    case Settle(i, project, reason) => Settled(b, i, project, reason)
    case Wait(d) => Waited(b, d)
  }

  ghost predicate Run(trace: seq<Books>, events: seq<Event>) {
    |trace| == |events| + 1 && trace[0].leases == [] && trace[0].ledger == []
    && forall k :: 0 <= k < |events| ==> Possible(trace[k], events[k]) && trace[k + 1] == After(trace[k], events[k])
  }

  lemma AfterBalanced(b: Books, e: Event)
    requires Balanced(b) && Possible(b, e)
    ensures Balanced(After(b, e))
  {
    match e
    case Acquire(row) => AcquireBalanced(b, row);
    case Touch(i, project) => TouchBalanced(b, i, project);
    case Settle(i, project, reason) => SettleBalanced(b, i, project, reason);
    case Wait(d) => WaitBalanced(b, d);
  }

  /** The ledger is in balance in every state of every run, however often and in whatever order holds
      are touched and settled. */
  lemma {:induction false} LedgerConservation(trace: seq<Books>, events: seq<Event>, k: nat)
    requires Run(trace, events) && k < |trace|
    ensures Balanced(trace[k])
  {
    if k > 0 {
      LedgerConservation(trace, events, k - 1);
      AfterBalanced(trace[k - 1], events[k - 1]);
    }
  }

  lemma EventKeepsClosed(b: Books, e: Event, i: nat)
    requires i < |b.leases| && !Open(b.leases[i])
    ensures i < |After(b, e).leases| && After(b, e).leases[i] == b.leases[i]
    ensures b.ledger <= After(b, e).ledger
  {
  }

  /** Once a hold is closed nothing later moves its row, its bill or a written entry. */
  lemma {:induction false} ClosedForGood(trace: seq<Books>, events: seq<Event>, j: nat, k: nat, i: nat)
    requires Run(trace, events) && j <= k < |trace|
    requires i < |trace[j].leases| && !Open(trace[j].leases[i])
    ensures i < |trace[k].leases| && trace[k].leases[i] == trace[j].leases[i]
    ensures trace[j].ledger <= trace[k].ledger
  {
    if j < k {
      ClosedForGood(trace, events, j, k - 1, i);
      EventKeepsClosed(trace[k - 1], events[k - 1], i);
    }
  }

  // --- one session's bill --------------------------------------------------------------------

  function HoldsOf(leases: seq<Lease>, session: nat): seq<Lease> {
    if leases == [] then []
    else
      var n := |leases| - 1;
      HoldsOf(leases[..n], session) + (if leases[n].session == session then [leases[n]] else [])
  }

  /** Each hold over before the next begins; all timely, all closed. */
  predicate Consecutive(h: seq<Lease>) {
    && (forall k :: 0 <= k < |h| ==> h[k].close.Some? && h[k].started <= h[k].activity <= h[k].close.value.at)
    && (forall j, k :: 0 <= j < k < |h| ==> Before(h[j], h[k]))
  }

  predicate Before(a: Lease, b: Lease) {
    a.close.Some? && a.close.value.at <= b.started
  }

  function IdleTail(l: Lease): int {
    if l.close.Some? && l.close.value.reason.Idle? then l.close.value.at - l.activity else 0
  }

  function IdleTails(h: seq<Lease>): int {
    if h == [] then 0 else IdleTails(h[..|h| - 1]) + IdleTail(h[|h| - 1])
  }

  /** Time between holds, in which the session held nothing. */
  function Gaps(h: seq<Lease>): int
    requires Consecutive(h)
  {
    if |h| < 2 then 0
    else
      assert Consecutive(h[..|h| - 1]);
      assert Before(h[|h| - 2], h[|h| - 1]);
      Gaps(h[..|h| - 1]) + (h[|h| - 1].started - h[|h| - 2].close.value.at)
  }

  /** The bill is the span from first start to last release, less the gaps and the idle tails. */
  lemma {:induction false} BillIsSpanLessGapsAndTails(h: seq<Lease>)
    requires Consecutive(h) && h != []
    ensures SumBilled(h) == (h[|h| - 1].close.value.at - h[0].started) - Gaps(h) - IdleTails(h)
    ensures Gaps(h) >= 0 && IdleTails(h) >= 0
  {
    var n := |h| - 1;
    if n > 0 {
      assert Consecutive(h[..n]) && Before(h[n - 1], h[n]);
      BillIsSpanLessGapsAndTails(h[..n]);
    } else {
      assert h[..0] == [];
    }
  }
}
