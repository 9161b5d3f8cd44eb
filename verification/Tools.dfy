/** Tool calls: the approval gate and the replay ledger (packages/coordinator/approvals.go:115-578,
    orchestration.go:584-865, storage/queries/publications.sql, responses.sql). Each transaction holds the
    call's or the run's row lock and is one step; clicks, sweeps, attempts and reconcilers interleave. */
module Tools {
  import opened Base
  import opened Journal
  import opened Spine
  import opened Commands
  import opened Quiet

  datatype CallState =
    | ApprovalPending | Ready | InFlight | Leased | Completed | Uncertain
    | ManualResolution | ReconciledCompleted | ReconciledNotApplied | Canceled

  /** A tool_calls row. InFlight is `executing`. */
  datatype Call = Call(run: nat, state: CallState, fence: nat, hash: string, result: Option<string>)

  datatype Approval = Approval(expires: Option<nat>, decidedBy: Option<string>)

  datatype Ledger = Ledger(
    sp: Spine, calls: map<nat, Call>, approvals: map<nat, Approval>, approvers: seq<string>, now: nat)

  predicate Resolved(s: CallState) {
    s.Completed? || s.ReconciledCompleted? || s.ReconciledNotApplied?
  }

  predicate Flying(s: CallState) {
    s.InFlight? || s.Leased?
  }

  function Put(t: Ledger, call: nat, c: Call): Ledger {
    t.(calls := t.calls[call := c])
  }

  /** Telling the journal and waking the run leave the ledger's own tables alone. */
  predicate SameTables(a: Ledger, b: Ledger) {
    a.calls == b.calls && a.approvals == b.approvals && a.approvers == b.approvers && a.now == b.now
    && a.sp.runs.Keys == b.sp.runs.Keys
  }

  function Say(t: Ledger, run: nat, call: nat, mark: ToolMark): (out: Ledger)
    ensures SameTables(t, out)
  {
    if run in t.sp.runs then t.(sp := Tell(t.sp, t.sp.runs[run].session, ToolTold(call, mark))) else t
  }

  function Note(t: Ledger, run: nat): (out: Ledger)
    ensures SameTables(t, out)
  {
    if run in t.sp.runs then t.(sp := Tell(t.sp, t.sp.runs[run].session, Noted)) else t
  }

  function Wake(t: Ledger, run: nat): (out: Ledger)
    ensures SameTables(t, out)
  {
    WakeRuns(t.sp, run);
    t.(sp := WakeParked(t.sp, run))
  }

  // --- the approval gate ---------------------------------------------------------------------

  /** RequestToolApproval: the first park is authoritative. */
  function Requested(t: Ledger, run: nat, call: nat, fence: nat, hash: string, expires: Option<nat>): Ledger {
    if !Live(t.sp, run) || call in t.calls then t
    else
      var parked := Put(t, call, Call(run, ApprovalPending, fence, hash, None))
        .(approvals := if call in t.approvals then t.approvals else t.approvals[call := Approval(expires, None)]);
      Say(Note(parked, run), run, call, Asked)
  }

  predicate AtGate(t: Ledger, call: nat) {
    call in t.calls && t.calls[call].state.ApprovalPending?
  }

  predicate Late(t: Ledger, call: nat) {
    call in t.approvals && t.approvals[call].expires.Some? && t.approvals[call].expires.value < t.now
  }

  /** expireToolCallTx. */
  function ExpiredCall(t: Ledger, call: nat): Ledger
    requires AtGate(t, call)
  {
    var c := t.calls[call];
    Wake(Say(Note(Put(t, call, c.(state := Canceled, result := Some("denied"))), c.run), c.run, call, Withdrawn), c.run)
  }

  predicate ApproverAllowed(approvers: seq<string>, who: string) {
    approvers == [] || (who != "" && who in approvers)
  }

  datatype Click = Click(call: nat, who: string, approve: bool, hash: string)

  datatype Outcome = NotAuthorized | Void | Decided

  /** The click as it would have to be to decide a pending call. */
  predicate Binding(t: Ledger, k: Click) {
    ApproverAllowed(t.approvers, k.who) && AtGate(t, k.call) && !Late(t, k.call)
    && (k.hash == "" || k.hash == t.calls[k.call].hash)
  }

  function DecidedCall(t: Ledger, k: Click): Ledger
    requires AtGate(t, k.call)
  {
    var c := t.calls[k.call];
    var settled :=
      if k.approve then Note(Say(Put(t, k.call, c.(state := Ready)), c.run, k.call, Readied), c.run)
      else Note(Say(Put(t, k.call, c.(state := Canceled, result := Some("denied"))), c.run, k.call, Withdrawn), c.run);
    var recorded := settled.(approvals :=
      if k.call in t.approvals then t.approvals[k.call := t.approvals[k.call].(decidedBy := Some(k.who))]
      else t.approvals);
    Wake(recorded, c.run)
  }

  /** DecideToolApproval: the approver, then the row, then the deadline, then the hash. */
  function Clicked(t: Ledger, k: Click): (Ledger, Outcome) {
    if !ApproverAllowed(t.approvers, k.who) then (t, NotAuthorized)
    else if !AtGate(t, k.call) then (t, Void)
    else if Late(t, k.call) then (ExpiredCall(t, k.call), Void)
    else if k.hash != "" && k.hash != t.calls[k.call].hash then (t, Void)
    else (DecidedCall(t, k), Decided)
  }

  // --- the replay ledger ---------------------------------------------------------------------

  function Max(a: nat, b: nat): nat {
    if a < b then b else a
  }

  /** BeginToolCall: every row it touches is journaled, whatever state it was in. */
  function Begun(t: Ledger, run: nat, call: nat, fence: nat, hash: string): Ledger {
    if !Live(t.sp, run) then t
    else if call !in t.calls then Say(Put(t, call, Call(run, InFlight, fence, hash, None)), run, call, Executing)
    else if Resolved(t.calls[call].state) then t
    else
      var c := t.calls[call];
      Say(Put(t, call, c.(fence := Max(c.fence, fence), state := if c.state.Ready? then InFlight else c.state)),
          run, call, Executing)
  }

  datatype CommitAnswer = Terminal | Stale | Committed

  /** UpsertToolCall and what CommitToolResult makes of its row count. */
  function CommittedResult(t: Ledger, run: nat, call: nat, fence: nat, hash: string, result: string)
    : (Ledger, CommitAnswer)
  {
    if !Live(t.sp, run) then (t, Terminal)
    else if call !in t.calls then
      (Say(Put(t, call, Call(run, Completed, fence, hash, Some(result))), run, call, Finished), Committed)
    else
      var c := t.calls[call];
      if Flying(c.state) && c.fence <= fence then
        (Say(Put(t, call, c.(state := Completed, result := Some(result))), run, call, Finished), Committed)
      else if c.state.Completed? then (t, Committed)
      else (t, Stale)
  }

  function MarkedUncertain(t: Ledger, run: nat, call: nat): Ledger {
    if Live(t.sp, run) && call in t.calls && Flying(t.calls[call].state)
    then Say(Put(t, call, t.calls[call].(state := Uncertain)), run, call, Doubted)
    else t
  }

  predicate Resolution(s: CallState) {
    s.ManualResolution? || s.ReconciledCompleted? || s.ReconciledNotApplied?
  }

  /** ReconcileToolCall, which is not guarded by the run. */
  function ReconciledCall(t: Ledger, call: nat, to: CallState, result: Option<string>): Ledger
    requires Resolution(to)
  {
    if call in t.calls && t.calls[call].state.Uncertain? then
      var c := t.calls[call];
      Say(Put(t, call, c.(state := to, result := if result.Some? then result else c.result)), c.run, call, Reconciled)
    else t
  }

  // --- steps ---------------------------------------------------------------------------------

  datatype Deed =
    | Request(run: nat, call: nat, fence: nat, hash: string, expires: Option<nat>)
    | Decide(click: Click)
    | Expire(call: nat)
    | Begin(run: nat, call: nat, fence: nat, hash: string)
    | Commit(run: nat, call: nat, fence: nat, hash: string, result: string)
    | MarkUncertain(run: nat, call: nat)
    | Reconcile(call: nat, to: CallState, found: Option<string>)
    | Elsewhere(a: Action)
    | Pass(d: nat)

  /** Expire is the sweep's, for a candidate whose deadline it read as past; a call keeps its run. */
  predicate CanDo(t: Ledger, d: Deed) {
    match d
    case Expire(call) => Late(t, call)
    case Begin(run, call, _, _) => call in t.calls ==> t.calls[call].run == run
    case Commit(run, call, _, _, _) => call in t.calls ==> t.calls[call].run == run
    case MarkUncertain(run, call) => call in t.calls ==> t.calls[call].run == run
    case Reconcile(_, to, _) => Resolution(to)
    case Elsewhere(a) => Can(t.sp, a) && (a.Journal? ==> !a.body.ToolTold?)
    case _ => true
  }

  function Done(t: Ledger, d: Deed): Ledger
    requires CanDo(t, d)
  {
    match d
    case Request(run, call, fence, hash, expires) => Requested(t, run, call, fence, hash, expires)
    case Decide(click) => Clicked(t, click).0
    case Expire(call) => if AtGate(t, call) then ExpiredCall(t, call) else t
    case Begin(run, call, fence, hash) => Begun(t, run, call, fence, hash)
    case Commit(run, call, fence, hash, result) => CommittedResult(t, run, call, fence, hash, result).0
    case MarkUncertain(run, call) => MarkedUncertain(t, run, call)
    case Reconcile(call, to, result) => ReconciledCall(t, call, to, result)
    case Elsewhere(a) => t.(sp := Do(t.sp, a))
    case Pass(d) => t.(now := t.now + d)
  }

  // --- how a row moves -----------------------------------------------------------------------

  /** The calls table after a step. */
  function CallsAfter(t: Ledger, d: Deed): map<nat, Call>
    requires CanDo(t, d)
  {
    match d
    case Request(run, call, fence, hash, _) =>
      if Live(t.sp, run) && call !in t.calls then t.calls[call := Call(run, ApprovalPending, fence, hash, None)]
      else t.calls
    case Decide(k) =>
      if Binding(t, k) && k.approve then t.calls[k.call := t.calls[k.call].(state := Ready)]
      else if Binding(t, k) || (ApproverAllowed(t.approvers, k.who) && AtGate(t, k.call) && Late(t, k.call))
      then t.calls[k.call := t.calls[k.call].(state := Canceled, result := Some("denied"))]
      else t.calls
    case Expire(call) =>
      if AtGate(t, call) then t.calls[call := t.calls[call].(state := Canceled, result := Some("denied"))] else t.calls
    case Begin(run, call, fence, hash) => Begun(t, run, call, fence, hash).calls
    case Commit(run, call, fence, hash, result) => CommittedResult(t, run, call, fence, hash, result).0.calls
    case MarkUncertain(run, call) => MarkedUncertain(t, run, call).calls
    case Reconcile(call, to, result) => ReconciledCall(t, call, to, result).calls
    case _ => t.calls
  }

  lemma ClickCalls(t: Ledger, k: Click)
    ensures Clicked(t, k).0.calls == CallsAfter(t, Decide(k))
  {
  }

  lemma StepCalls(t: Ledger, d: Deed)
    requires CanDo(t, d)
    ensures Done(t, d).calls == CallsAfter(t, d)
  {
    if d.Decide? { ClickCalls(t, d.click); }
  }

  /** A row moves along one of these edges or stays. */
  predicate Edge(a: CallState, b: CallState) {
    || a == b
    || (a.ApprovalPending? && (b.Ready? || b.Canceled?))
    || (a.Ready? && b.InFlight?)
    || (Flying(a) && (b.Completed? || b.Uncertain?))
    || (a.Uncertain? && Resolution(b))
  }

  predicate RowFollows(was: Call, now: Call) {
    && Edge(was.state, now.state) && now.run == was.run && now.hash == was.hash && now.fence >= was.fence
    && (Resolved(was.state) || was.state.Canceled? || was.state.ManualResolution? ==>
         now.result == was.result && now.state == was.state)
  }

  lemma RowsAfter(t: Ledger, d: Deed, call: nat)
    requires CanDo(t, d) && call in t.calls
    ensures call in CallsAfter(t, d) && RowFollows(t.calls[call], CallsAfter(t, d)[call])
  {
  }

  /** Every row keeps its run and hash, never loses fence, and once settled never changes result or state. */
  lemma RowsFollow(t: Ledger, d: Deed, call: nat)
    requires CanDo(t, d) && call in t.calls
    ensures call in Done(t, d).calls && RowFollows(t.calls[call], Done(t, d).calls[call])
  {
    StepCalls(t, d);
    RowsAfter(t, d, call);
  }
}
