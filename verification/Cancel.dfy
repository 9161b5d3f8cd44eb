/** Cancelling a run while its engine, its children, a recovery and the sweeps finish on their own
    (packages/coordinator/orchestration.go:317-407 and lease.go:222-271, finalize.go:214-274 and restore.go:312-337
    in apps/control-plane/internal/execution). A cancel is many transactions; anything may commit between two of
    them, and any caller may stop for good after any of them. Run r's response is named by r. */
module Cancel {
  import opened Base
  import opened RunTable

  /** A response row: open, finished with a run's terminal status, or failed_with_uncertain_side_effect. */
  datatype Resp = Open | Finished(status: RunState) | WithUncertain

  /** Where a caller stands. `saw`: it read an unresolved uncertain call. `all` is history: the children it
      set out to cancel. */
  datatype Pc =
    | CancelRead(r: nat, saw: bool)
    | CancelMoved(r: nat, saw: bool)
    | CancelKids(r: nat, saw: bool, kids: seq<nat>, all: seq<nat>)
    | CancelKid(r: nat, saw: bool, kid: nat, kids: seq<nat>, all: seq<nat>)
    | CancelCheck(r: nat, saw: bool, all: seq<nat>)
    | CancelWrite(r: nat, saw: bool, all: seq<nat>)
    | Returned(r: nat, all: seq<nat>)
    | EngineWrite(r: nat, status: RunState, legal: bool)
    | Recovering(r: nat)
    | SweepWrite(r: nat)

  /** doubt: runs with an irreversible or interactive call uncertain or awaiting a human. loose is history:
      runs whose response was finished by a terminal its run had refused. */
  datatype World = World(
    runs: map<nat, RunState>, parent: map<nat, nat>, resp: map<nat, Resp>, doubt: set<nat>,
    callers: map<nat, Pc>, loose: set<nat>)

  // --- the statements ------------------------------------------------------------------------

  /** UpdateResponse: the first terminal write wins. */
  function Wrote(resp: map<nat, Resp>, r: nat, v: Resp): map<nat, Resp> {
    if r in resp && resp[r].Open? then resp[r := v] else resp
  }

  /** A path of at most n steps up the parent tree. */
  predicate Below(parent: map<nat, nat>, x: nat, r: nat, n: nat)
    decreases n
  {
    n > 0 && x in parent && (parent[x] == r || Below(parent, parent[x], r, n - 1))
  }

  ghost predicate Descends(parent: map<nat, nat>, x: nat, r: nat) {
    exists n: nat :: Below(parent, x, r, n)
  }

  /** NonTerminalDescendantRuns. */
  ghost predicate Snapshot(w: World, r: nat, kids: seq<nat>) {
    forall x :: x in kids <==> x in w.runs && !Terminal(w.runs[x]) && Descends(w.parent, x, r)
  }

  function StatusOf(c: RunCommand): RunState {
    match c
    case Complete => Completed
    case Fail => Failed
    case Cancel => Canceled
    case Timeout => TimedOut
    case _ => BudgetExceeded
  }

  predicate Ends(c: RunCommand) {
    c.Complete? || c.Fail? || c.Cancel? || c.Timeout? || c.ExhaustBudget?
  }

  // --- steps ---------------------------------------------------------------------------------

  datatype Step =
    | NewRun(r: nat, parent: Option<nat>)
    | Carry(r: nat, c: RunCommand)
    | TimeOutAtOnce(r: nat)
    | MarkDoubt(r: nat)
    | ClearDoubt(r: nat)
    | StartCancel(a: nat, r: nat)
    | MoveCanceled(a: nat)
    | ReadKids(a: nat, kids: seq<nat>)
    | MoveKid(a: nat)
    | WriteKid(a: nat)
    | KidsDone(a: nat)
    | CheckRun(a: nat)
    | WriteCanceled(a: nat)
    | EngineEnd(a: nat, r: nat, c: RunCommand)
    | EngineFinish(a: nat)
    | OpenRecovery(a: nat, r: nat)
    | FailRecovery(a: nat)
    | SweepFail(a: nat, r: nat)
    | SweepFinish(a: nat)
    | Stop(a: nat)

  ghost predicate Can(w: World, s: Step) {
    match s
    case NewRun(r, parent) =>
      r !in w.runs && (parent.Some? ==> parent.value in w.runs && !Terminal(w.runs[parent.value]))
    case Carry(r, c) => r in w.runs && !Ends(c) && Next(w.runs[r], c).Some?
    case TimeOutAtOnce(r) => r in w.runs && Next(w.runs[r], Timeout).Some?
    case MarkDoubt(r) => r in w.runs && !Terminal(w.runs[r])
    case ClearDoubt(r) => true
    case StartCancel(a, r) => a !in w.callers && r in w.runs
    case MoveCanceled(a) => a in w.callers && w.callers[a].CancelRead? && w.callers[a].r in w.runs
    case ReadKids(a, kids) => a in w.callers && w.callers[a].CancelMoved? && Snapshot(w, w.callers[a].r, kids)
    case MoveKid(a) =>
      a in w.callers && w.callers[a].CancelKids? && w.callers[a].kids != [] && w.callers[a].kids[0] in w.runs
    case WriteKid(a) => a in w.callers && w.callers[a].CancelKid?
    case KidsDone(a) => a in w.callers && w.callers[a].CancelKids? && w.callers[a].kids == []
    case CheckRun(a) => a in w.callers && w.callers[a].CancelCheck? && w.callers[a].r in w.runs
    case WriteCanceled(a) => a in w.callers && w.callers[a].CancelWrite?
    case EngineEnd(a, r, c) => a !in w.callers && r in w.runs && Ends(c)
    case EngineFinish(a) => a in w.callers && w.callers[a].EngineWrite?
    case OpenRecovery(a, r) => a !in w.callers && r in w.runs && !Terminal(w.runs[r])
    case FailRecovery(a) => a in w.callers && w.callers[a].Recovering? && w.callers[a].r in w.runs
    case SweepFail(a, r) => a !in w.callers && r in w.runs
    case SweepFinish(a) => a in w.callers && w.callers[a].SweepWrite?
    case Stop(a) => a in w.callers
  }

  function At(w: World, a: nat, pc: Pc): World {
    w.(callers := w.callers[a := pc])
  }

  function Ended(w: World, r: nat, to: RunState): World {
    w.(runs := w.runs[r := to])
  }

  function Do(w: World, s: Step): World
    requires Can(w, s)
  {
    match s
    case NewRun(r, parent) =>
      w.(runs := w.runs[r := Queued], resp := if r in w.resp then w.resp else w.resp[r := Open],
         parent := if parent.Some? then w.parent[r := parent.value] else w.parent)
    case Carry(r, c) => w.(runs := w.runs[r := Next(w.runs[r], c).value])
    case TimeOutAtOnce(r) => w.(runs := w.runs[r := TimedOut], resp := Wrote(w.resp, r, Finished(TimedOut)))
    case MarkDoubt(r) => w.(doubt := w.doubt + {r})
    case ClearDoubt(r) => w.(doubt := w.doubt - {r})
    case StartCancel(a, r) => At(w, a, CancelRead(r, r in w.doubt))
    case MoveCanceled(a) =>
      var pc := w.callers[a];
      var next := At(w, a, CancelMoved(pc.r, pc.saw));
      if Terminal(w.runs[pc.r]) then next else Ended(next, pc.r, Canceled)
    case ReadKids(a, kids) => At(w, a, CancelKids(w.callers[a].r, w.callers[a].saw, kids, kids))
    case MoveKid(a) =>
      var pc := w.callers[a];
      var kid, rest := pc.kids[0], pc.kids[1..];
      if Terminal(w.runs[kid]) then At(w, a, CancelKids(pc.r, pc.saw, rest, pc.all))
      else At(Ended(w, kid, Canceled), a, CancelKid(pc.r, pc.saw, kid, rest, pc.all))
    case WriteKid(a) =>
      var pc := w.callers[a];
      At(w.(resp := Wrote(w.resp, pc.kid, Finished(Canceled))), a, CancelKids(pc.r, pc.saw, pc.kids, pc.all))
    case KidsDone(a) => At(w, a, CancelCheck(w.callers[a].r, w.callers[a].saw, w.callers[a].all))
    case CheckRun(a) =>
      var pc := w.callers[a];
      At(w, a, if w.runs[pc.r].Canceled? then CancelWrite(pc.r, pc.saw, pc.all) else Returned(pc.r, pc.all))
    case WriteCanceled(a) =>
      var pc := w.callers[a];
      At(w.(resp := Wrote(w.resp, pc.r, if pc.saw then WithUncertain else Finished(Canceled))), a,
         Returned(pc.r, pc.all))
    case EngineEnd(a, r, c) =>
      if Terminal(w.runs[r]) then w
      else if Next(w.runs[r], c).Some?
      then At(Ended(w, r, Next(w.runs[r], c).value), a, EngineWrite(r, StatusOf(c), true))
      else At(w, a, EngineWrite(r, StatusOf(c), false))
    case EngineFinish(a) =>
      var pc := w.callers[a];
      w.(resp := Wrote(w.resp, pc.r, Finished(pc.status)), callers := w.callers - {a},
         loose := if !pc.legal && pc.r in w.resp && w.resp[pc.r].Open? then w.loose + {pc.r} else w.loose)
    case OpenRecovery(a, r) => At(w, a, Recovering(r))
    case FailRecovery(a) =>
      var r := w.callers[a].r;
      if Next(w.runs[r], Fail).Some? then At(Ended(w, r, Failed), a, EngineWrite(r, Failed, true))
      else At(w, a, EngineWrite(r, Failed, false))
    case SweepFail(a, r) =>
      if Next(w.runs[r], Fail).Some? then At(Ended(w, r, Failed), a, SweepWrite(r)) else w
    case SweepFinish(a) => w.(resp := Wrote(w.resp, w.callers[a].r, Finished(Failed)), callers := w.callers - {a})
    case Stop(a) => w.(callers := w.callers - {a})
  }

  // --- one terminal each ---------------------------------------------------------------------

  /** No step moves a run that has ended or a response that has finished. */
  lemma OneTerminal(w: World, s: Step, r: nat)
    requires Can(w, s)
    ensures r in w.runs && Terminal(w.runs[r]) ==> r in Do(w, s).runs && Do(w, s).runs[r] == w.runs[r]
    ensures r in w.resp && !w.resp[r].Open? ==> r in Do(w, s).resp && Do(w, s).resp[r] == w.resp[r]
  {
    assert r in w.runs && Terminal(w.runs[r]) ==> forall c :: Next(w.runs[r], c).None?;
  }

  // --- run and response agree ----------------------------------------------------------------

  /** What a caller about to write knows of the run whose response it will write. */
  predicate PcTrue(runs: map<nat, RunState>, pc: Pc) {
    match pc
    case CancelKid(_, _, kid, _, _) => kid in runs && runs[kid].Canceled?
    case CancelWrite(r, _, _) => r in runs && runs[r].Canceled?
    case EngineWrite(r, status, legal) =>
      r in runs && (if legal then runs[r] == status && Terminal(status) else !status.Canceled?)
    case SweepWrite(r) => r in runs && runs[r].Failed?
    case _ => true
  }

  /** A finished response names its run's own terminal, or the uncertain form of canceled; where the
      engine's write was loose, anything but those two. */
  predicate Agrees(runs: map<nat, RunState>, loose: set<nat>, r: nat, v: Resp) {
    match v
    case Open => r !in loose
    case WithUncertain => r in runs && runs[r].Canceled? && r !in loose
    case Finished(s) => if r in loose then !s.Canceled? else r in runs && runs[r] == s && Terminal(s)
  }

  predicate AllAgree(w: World) {
    forall r :: r in w.resp ==> Agrees(w.runs, w.loose, r, w.resp[r])
  }

  predicate PcsTrue(w: World) {
    forall a :: a in w.callers ==> PcTrue(w.runs, w.callers[a])
  }

  predicate HasResponses(w: World) {
    w.runs.Keys <= w.resp.Keys && w.loose <= w.resp.Keys
  }

  predicate Inv(w: World) {
    AllAgree(w) && PcsTrue(w) && HasResponses(w)
  }

  lemma PcStays(w: World, s: Step, pc: Pc)
    requires Can(w, s) && PcTrue(w.runs, pc)
    ensures PcTrue(Do(w, s).runs, pc)
  {
    match pc
    case CancelKid(_, _, kid, _, _) => OneTerminal(w, s, kid);
    case CancelWrite(r, _, _) => OneTerminal(w, s, r);
    case EngineWrite(r, _, _) => OneTerminal(w, s, r);
    case SweepWrite(r) => OneTerminal(w, s, r);
    case _ =>
  }

  lemma StepPc(w: World, s: Step, a: nat)
    requires Inv(w) && Can(w, s) && a in Do(w, s).callers
    ensures PcTrue(Do(w, s).runs, Do(w, s).callers[a])
  {
    if a in w.callers {
      PcStays(w, s, w.callers[a]);
    }
  }

  /** What each step writes, and to which response. */
  function Writes(w: World, s: Step): Option<(nat, Resp)>
    requires Can(w, s)
  {
    match s
    case TimeOutAtOnce(r) => Some((r, Finished(TimedOut)))
    case WriteKid(a) => Some((w.callers[a].kid, Finished(Canceled)))
    case WriteCanceled(a) => Some((w.callers[a].r, if w.callers[a].saw then WithUncertain else Finished(Canceled)))
    case EngineFinish(a) => Some((w.callers[a].r, Finished(w.callers[a].status)))
    case SweepFinish(a) => Some((w.callers[a].r, Finished(Failed)))
    case _ => None
  }

  /** The engine terminal its run had refused, about to finish an open response all the same. */
  predicate LooseWrite(w: World, s: Step, r: nat) {
    s.EngineFinish? && s.a in w.callers && w.callers[s.a].EngineWrite? && !w.callers[s.a].legal
    && w.callers[s.a].r == r && r in w.resp && w.resp[r].Open?
  }

  lemma StepResp(w: World, s: Step, r: nat)
    requires Can(w, s) && HasResponses(w)
    ensures r in Do(w, s).resp <==> r in w.resp || (s.NewRun? && s.r == r)
    ensures r in w.resp ==>
              Do(w, s).resp[r] == if w.resp[r].Open? && Writes(w, s).Some? && Writes(w, s).value.0 == r
                                  then Writes(w, s).value.1 else w.resp[r]
    ensures r !in w.resp && s.NewRun? && s.r == r ==> Do(w, s).resp[r].Open?
    ensures r in Do(w, s).loose <==> r in w.loose || LooseWrite(w, s, r)
  {
  }

  /** A write is of the run's own terminal, or loose. */
  lemma WriteTrue(w: World, s: Step, r: nat)
    requires Inv(w) && Can(w, s) && Writes(w, s).Some? && Writes(w, s).value.0 == r
    ensures r in w.resp && w.resp[r].Open? ==>
              Agrees(Do(w, s).runs, if LooseWrite(w, s, r) then {r} else {}, r, Writes(w, s).value.1)
  {
    if !s.TimeOutAtOnce? { assert PcTrue(w.runs, w.callers[s.a]); }
  }

  lemma StepAgrees(w: World, s: Step, r: nat)
    requires Inv(w) && Can(w, s) && r in Do(w, s).resp
    ensures Agrees(Do(w, s).runs, Do(w, s).loose, r, Do(w, s).resp[r])
  {
    StepResp(w, s, r);
    OneTerminal(w, s, r);
    if r in w.resp {
      assert Agrees(w.runs, w.loose, r, w.resp[r]);
      if w.resp[r].Open? && Writes(w, s).Some? && Writes(w, s).value.0 == r { WriteTrue(w, s, r); }
    }
  }

  lemma StepInv(w: World, s: Step)
    requires Inv(w) && Can(w, s)
    ensures Inv(Do(w, s))
  {
    var v := Do(w, s);
    forall r | r in v.resp ensures Agrees(v.runs, v.loose, r, v.resp[r]) { StepAgrees(w, s, r); }
    forall a | a in v.callers ensures PcTrue(v.runs, v.callers[a]) { StepPc(w, s, a); }
    forall r ensures r in v.runs ==> r in v.resp { StepResp(w, s, r); }
    forall r ensures r in v.loose ==> r in v.resp { StepResp(w, s, r); }
  }

  // --- the children a cancel set out to cancel -----------------------------------------------

  /** Past its transition the canceled run is over, and so is every child already dealt with. */
  predicate PcDone(runs: map<nat, RunState>, pc: Pc) {
    match pc
    case CancelMoved(r, _) => Over(runs, r)
    case CancelKids(r, _, kids, all) => Over(runs, r) && forall x :: x in all ==> x in kids || Over(runs, x)
    case CancelKid(r, _, kid, kids, all) => Over(runs, r) && forall x :: x in all ==> x in kids || Over(runs, x)
    case CancelCheck(r, _, all) => Over(runs, r) && forall x :: x in all ==> Over(runs, x)
    case CancelWrite(r, _, all) => Over(runs, r) && forall x :: x in all ==> Over(runs, x)
    case Returned(r, all) => Over(runs, r) && forall x :: x in all ==> Over(runs, x)
    case _ => true
  }

  predicate Over(runs: map<nat, RunState>, r: nat) {
    r in runs && Terminal(runs[r])
  }

  lemma OverStays(w: World, s: Step)
    requires Can(w, s)
    ensures forall r :: Over(w.runs, r) ==> Over(Do(w, s).runs, r)
  {
    forall r | Over(w.runs, r) ensures Over(Do(w, s).runs, r) { OneTerminal(w, s, r); }
  }

  lemma DoneStays(was: map<nat, RunState>, now: map<nat, RunState>, pc: Pc)
    requires PcDone(was, pc) && forall r :: Over(was, r) ==> Over(now, r)
    ensures PcDone(now, pc)
  {
  }

  lemma KidStep(w: World, a: nat)
    requires Can(w, MoveKid(a)) && PcDone(w.runs, w.callers[a])
    ensures PcDone(Do(w, MoveKid(a)).runs, Do(w, MoveKid(a)).callers[a])
  {
    var pc := w.callers[a];
    OverStays(w, MoveKid(a));
    var now := Do(w, MoveKid(a)).runs;
    assert pc.kids == [pc.kids[0]] + pc.kids[1..];
    assert Over(now, pc.kids[0]);
  }

  lemma StepDone(w: World, s: Step, a: nat)
    requires Can(w, s) && a in Do(w, s).callers && (a in w.callers ==> PcDone(w.runs, w.callers[a]))
    ensures PcDone(Do(w, s).runs, Do(w, s).callers[a])
  {
    OverStays(w, s);
    if s == MoveKid(a) {
      KidStep(w, a);
    } else if a in w.callers {
      DoneStays(w.runs, Do(w, s).runs, w.callers[a]);
    }
  }

  predicate PcsDone(w: World) {
    forall a :: a in w.callers ==> PcDone(w.runs, w.callers[a])
  }

  // --- what a finished cancel leaves ---------------------------------------------------------

  /** A caller that returned found the run ended otherwise, or has written its response. */
  predicate PcClosed(w: World, pc: Pc) {
    pc.Returned? && pc.r in w.runs && w.runs[pc.r].Canceled? ==> pc.r in w.resp && !w.resp[pc.r].Open?
  }

  predicate PcsClosed(w: World) {
    forall a :: a in w.callers ==> PcClosed(w, w.callers[a])
  }

  /** A call comes to return by finding its run ended otherwise, or by writing. */
  lemma ReturnsBy(w: World, s: Step, a: nat)
    requires Can(w, s) && a in Do(w, s).callers && Do(w, s).callers[a].Returned?
    ensures a in w.callers && w.callers[a].r == Do(w, s).callers[a].r
    ensures w.callers[a] == Do(w, s).callers[a]
            || (w.callers[a].CancelCheck? && s == CheckRun(a) && !w.runs[w.callers[a].r].Canceled?)
            || (w.callers[a].CancelWrite? && s == WriteCanceled(a))
  {
  }

  lemma StepClosed(w: World, s: Step, a: nat)
    requires Inv(w) && PcsDone(w) && PcsClosed(w) && Can(w, s) && a in Do(w, s).callers
    ensures PcClosed(Do(w, s), Do(w, s).callers[a])
  {
    var pc := Do(w, s).callers[a];
    if pc.Returned? {
      ReturnsBy(w, s, a);
      StepResp(w, s, pc.r);
      assert PcDone(w.runs, w.callers[a]) && PcClosed(w, w.callers[a]) && PcTrue(w.runs, w.callers[a]);
      OneTerminal(w, s, pc.r);
    }
  }

  // --- every run -----------------------------------------------------------------------------

  predicate Start(w: World) {
    w.runs == map[] && w.parent == map[] && w.resp == map[] && w.callers == map[] && w.loose == {} && w.doubt == {}
  }

  ghost predicate Run(trace: seq<World>, steps: seq<Step>) {
    |trace| == |steps| + 1 && Start(trace[0])
    && forall k :: 0 <= k < |steps| ==> Can(trace[k], steps[k]) && trace[k + 1] == Do(trace[k], steps[k])
  }

  ghost predicate Sound(w: World) {
    Inv(w) && PcsDone(w) && PcsClosed(w)
  }

  lemma StepSound(w: World, s: Step)
    requires Sound(w) && Can(w, s)
    ensures Sound(Do(w, s))
  {
    StepInv(w, s);
    var v := Do(w, s);
    forall a | a in v.callers ensures PcDone(v.runs, v.callers[a]) && PcClosed(v, v.callers[a]) {
      StepDone(w, s, a);
      StepClosed(w, s, a);
    }
  }

  lemma {:induction false} RunSound(trace: seq<World>, steps: seq<Step>, k: nat)
    requires Run(trace, steps) && k < |trace|
    ensures Sound(trace[k])
  {
    if k > 0 {
      RunSound(trace, steps, k - 1);
      StepSound(trace[k - 1], steps[k - 1]);
    }
  }

  /** A response is never canceled, cleanly or uncertainly, unless its run is canceled: in every state of
      every interleaving, whatever the engine, the sweeps and the other cancels do. */
  lemma CanceledMeansCanceled(trace: seq<World>, steps: seq<Step>, k: nat, r: nat)
    requires Run(trace, steps) && k < |trace| && r in trace[k].resp
    requires trace[k].resp[r] == Finished(Canceled) || trace[k].resp[r].WithUncertain?
    ensures r in trace[k].runs && trace[k].runs[r].Canceled?
  {
    RunSound(trace, steps, k);
    assert Agrees(trace[k].runs, trace[k].loose, r, trace[k].resp[r]);
  }

  /** Its run's own terminal, or the uncertain form of canceled. */
  predicate NamesTerminal(w: World, r: nat)
    requires r in w.resp
  {
    r in w.runs && Terminal(w.runs[r])
    && (w.resp[r] == Finished(w.runs[r]) || (w.resp[r].WithUncertain? && w.runs[r].Canceled?))
  }

  /** A finished response that no loose write reached names its run's own terminal, whichever that is; and a
      canceled run's finished response does so exactly where no loose write came first. */
  lemma AgreeExactly(trace: seq<World>, steps: seq<Step>, k: nat, r: nat)
    requires Run(trace, steps) && k < |trace| && r in trace[k].resp && !trace[k].resp[r].Open?
    ensures r !in trace[k].loose ==> NamesTerminal(trace[k], r)
    ensures r in trace[k].runs && trace[k].runs[r].Canceled? ==>
              (NamesTerminal(trace[k], r) <==> r !in trace[k].loose)
  {
    RunSound(trace, steps, k);
    assert Agrees(trace[k].runs, trace[k].loose, r, trace[k].resp[r]);
  }

  /** When a cancel returns, its run is over and so is every child it found alive; and if the run was
      canceled, its response is finished: canceled or uncertain, unless a loose write came first. */
  lemma CancelReturns(trace: seq<World>, steps: seq<Step>, k: nat, a: nat)
    requires Run(trace, steps) && k < |trace| && a in trace[k].callers && trace[k].callers[a].Returned?
    ensures var w, pc := trace[k], trace[k].callers[a];
      && Over(w.runs, pc.r) && (forall x :: x in pc.all ==> Over(w.runs, x))
      && (w.runs[pc.r].Canceled? && pc.r !in w.loose ==>
           pc.r in w.resp && (w.resp[pc.r] == Finished(Canceled) || w.resp[pc.r].WithUncertain?))
  {
    RunSound(trace, steps, k);
    var w, pc := trace[k], trace[k].callers[a];
    assert PcDone(w.runs, pc) && PcClosed(w, pc);
    if pc.r in w.resp { assert Agrees(w.runs, w.loose, pc.r, w.resp[pc.r]); }
  }

  /** A loose write is real: an attempt that reports completion while its run is waiting finishes the
      response as completed, and a cancel that follows leaves the run canceled under it. */
  lemma LooseWriteDiverges(w: World, a: nat, b: nat, r: nat)
    requires a != b && a !in w.callers && b !in w.callers
    requires r in w.runs && w.runs[r].Waiting? && r in w.resp && w.resp[r].Open?
    ensures var w1 := Do(w, EngineEnd(a, r, Complete));
      var w2 := Do(w1, EngineFinish(a));
      var w4 := Do(Do(w2, StartCancel(b, r)), MoveCanceled(b));
      w4.runs[r].Canceled? && w4.resp[r] == Finished(Completed) && r in w4.loose
  {
    var w1 := Do(w, EngineEnd(a, r, Complete));
    assert w1 == At(w, a, EngineWrite(r, Completed, false));
    var w2 := Do(w1, EngineFinish(a));
    assert w2.runs == w.runs && w2.resp == w.resp[r := Finished(Completed)] && r in w2.loose;
    var w3 := Do(w2, StartCancel(b, r));
    assert w3 == At(w2, b, CancelRead(r, r in w2.doubt));
  }

  /** So is a failed recovery: an attempt opened on a live run that is canceled meanwhile writes the response
      as failed, and the canceled run keeps it. */
  lemma RecoveryDiverges(w: World, a: nat, b: nat, r: nat)
    requires a in w.callers && w.callers[a] == Recovering(r) && b in w.callers && w.callers[b].CancelRead?
    requires w.callers[b].r == r && r in w.runs && !Terminal(w.runs[r]) && r in w.resp && w.resp[r].Open?
    ensures var w1 := Do(w, MoveCanceled(b));
      var w3 := Do(Do(w1, FailRecovery(a)), EngineFinish(a));
      w3.runs[r].Canceled? && w3.resp[r] == Finished(Failed) && r in w3.loose
  {
    var w1 := Do(w, MoveCanceled(b));
    assert w1.runs[r].Canceled? && w1.callers[a] == Recovering(r);
    var w2 := Do(w1, FailRecovery(a));
    assert w2 == At(w1, a, EngineWrite(r, Failed, false));
  }

  // --- the uncertain form --------------------------------------------------------------------

  /** The step finishes r's open response with v. */
  predicate Finishes(w: World, s: Step, r: nat, v: Resp)
    requires Can(w, s)
  {
    r in w.resp && w.resp[r].Open? && r in Do(w, s).resp && Do(w, s).resp[r] == v && !v.Open?
  }

  /** The three writes that end a response as plainly canceled, and none of them looks for doubt: a child's,
      an engine's own, and that of a cancel whose first read saw nothing. */
  predicate Blind(w: World, s: Step, r: nat)
    requires Can(w, s)
  {
    || (s.WriteKid? && w.callers[s.a].kid == r)
    || (s.EngineFinish? && w.callers[s.a].r == r && w.callers[s.a].status.Canceled?)
    || (s.WriteCanceled? && w.callers[s.a].r == r && !w.callers[s.a].saw)
  }

  predicate CleanInDoubt(w: World, s: Step, r: nat)
    requires Can(w, s)
  {
    Finishes(w, s, r, Finished(Canceled)) && r in Do(w, s).doubt
  }

  predicate BlindInDoubt(w: World, s: Step, r: nat)
    requires Can(w, s)
  {
    r in w.resp && w.resp[r].Open? && r in w.doubt && Blind(w, s, r)
  }

  /** A step finishes a response as plainly canceled under a call still in doubt exactly when it is one of
      the three, its run is in doubt and nobody has written first; and as uncertain exactly when it is the
      last write of a cancel that saw doubt. */
  lemma CleanExactly(w: World, s: Step, r: nat)
    requires Inv(w) && Can(w, s)
    ensures Finishes(w, s, r, Finished(Canceled)) <==> r in w.resp && w.resp[r].Open? && Blind(w, s, r)
    ensures CleanInDoubt(w, s, r) <==> BlindInDoubt(w, s, r)
    ensures Finishes(w, s, r, WithUncertain)
            <==> r in w.resp && w.resp[r].Open? && s.WriteCanceled? && w.callers[s.a].r == r && w.callers[s.a].saw
  {
    StepResp(w, s, r);
  }

  lemma FinishesNow(w: World, s: Step, r: nat)
    requires Inv(w) && Can(w, s) && r in Do(w, s).resp && !Do(w, s).resp[r].Open?
    requires r !in w.resp || w.resp[r].Open?
    ensures Finishes(w, s, r, Do(w, s).resp[r])
  {
    StepResp(w, s, r);
  }

  /** The step at which a response was finished: there is one, and what it wrote stayed. */
  lemma {:induction false} FinishedAt(trace: seq<World>, steps: seq<Step>, k: nat, r: nat) returns (j: nat)
    requires Run(trace, steps) && k < |trace| && r in trace[k].resp && !trace[k].resp[r].Open?
    ensures j < k && Finishes(trace[j], steps[j], r, trace[k].resp[r])
  {
    var w, s := trace[k - 1], steps[k - 1];
    RunSound(trace, steps, k - 1);
    if r in w.resp && !w.resp[r].Open? {
      OneTerminal(w, s, r);
      j := FinishedAt(trace, steps, k - 1, r);
    } else {
      FinishesNow(w, s, r);
      j := k - 1;
    }
  }

  /** A cancel somewhere between its read and its last write. */
  predicate Cancelling(w: World, a: nat, r: nat) {
    a in w.callers && w.callers[a].r == r
    && (w.callers[a].CancelRead? || w.callers[a].CancelMoved? || w.callers[a].CancelKids? || w.callers[a].CancelKid?
        || w.callers[a].CancelCheck? || w.callers[a].CancelWrite?)
  }

  lemma CancelCame(w: World, s: Step, a: nat, r: nat)
    requires Can(w, s) && Cancelling(Do(w, s), a, r) && s != StartCancel(a, r)
    ensures Cancelling(w, a, r) && w.callers[a].saw == Do(w, s).callers[a].saw
  {
  }

  lemma DoubtMarked(w: World, s: Step, r: nat)
    requires Can(w, s) && r in Do(w, s).doubt && r !in w.doubt
    ensures s == MarkDoubt(r)
  {
  }

  /** A cancel of a live run has only read. */
  lemma OnlyRead(w: World, a: nat, r: nat)
    requires PcsDone(w) && Cancelling(w, a, r) && r in w.runs && !Terminal(w.runs[r])
    ensures w.callers[a].CancelRead?
  {
    assert PcDone(w.runs, w.callers[a]);
  }

  /** A cancel that did not see the doubt there now was there before the step, and the doubt was too or began
      with a mark while that cancel had only read. */
  lemma UnseenCame(w: World, s: Step, a: nat, r: nat)
    requires PcsDone(w) && Can(w, s) && Cancelling(Do(w, s), a, r) && !Do(w, s).callers[a].saw && r in Do(w, s).doubt
    ensures Cancelling(w, a, r) && !w.callers[a].saw
    ensures r in w.doubt || (s == MarkDoubt(r) && w.callers[a] == CancelRead(r, false))
  {
    if r !in w.doubt { DoubtMarked(w, s, r); }
    if s != StartCancel(a, r) {
      CancelCame(w, s, a, r);
      if s == MarkDoubt(r) { OnlyRead(w, a, r); }
    }
  }

  /** What a cancel did not see was marked after it looked and before its run was over: the step that marked
      it fell while that cancel was between its read and its transition. */
  lemma {:induction false} DoubtCameAfter(trace: seq<World>, steps: seq<Step>, k: nat, a: nat, r: nat)
    returns (j: nat)
    requires Run(trace, steps) && k < |trace| && Cancelling(trace[k], a, r)
    requires !trace[k].callers[a].saw && r in trace[k].doubt
    ensures j < k && steps[j] == MarkDoubt(r) && Cancelling(trace[j], a, r)
            && trace[j].callers[a] == CancelRead(r, false)
  {
    var w := trace[k - 1];
    RunSound(trace, steps, k - 1);
    UnseenCame(w, steps[k - 1], a, r);
    if r in w.doubt { j := DoubtCameAfter(trace, steps, k - 1, a, r); } else { j := k - 1; }
  }

  /** Over every run: a response that is plainly canceled was made so by one of the three blind writes. If its
      run was in doubt then and the write was the cancel's own, the doubt was marked between that cancel's
      read and its transition; a child's or an engine's needs no such gap. */
  lemma CleanCancelMissed(trace: seq<World>, steps: seq<Step>, k: nat, r: nat) returns (j: nat, marked: nat)
    requires Run(trace, steps) && k < |trace| && r in trace[k].resp && trace[k].resp[r] == Finished(Canceled)
    ensures j < k && Finishes(trace[j], steps[j], r, Finished(Canceled))
    ensures Blind(trace[j], steps[j], r) && (r in trace[j].doubt <==> r in trace[j + 1].doubt)
    ensures r in trace[j].doubt && steps[j].WriteCanceled? ==>
              marked < j && steps[marked] == MarkDoubt(r) && Cancelling(trace[marked], steps[j].a, r)
              && trace[marked].callers[steps[j].a] == CancelRead(r, false)
  {
    j := FinishedAt(trace, steps, k, r);
    marked := 0;
    RunSound(trace, steps, j);
    CleanExactly(trace[j], steps[j], r);
    if r in trace[j].doubt && steps[j].WriteCanceled? {
      marked := DoubtCameAfter(trace, steps, j, steps[j].a, r);
    }
  }

  /** What a cancel says it saw is what its first read found. */
  lemma {:induction false} ReadWasTrue(trace: seq<World>, steps: seq<Step>, k: nat, a: nat, r: nat) returns (j: nat)
    requires Run(trace, steps) && k < |trace| && Cancelling(trace[k], a, r)
    ensures j < k && steps[j] == StartCancel(a, r) && (trace[k].callers[a].saw <==> r in trace[j].doubt)
  {
    if steps[k - 1] == StartCancel(a, r) {
      j := k - 1;
    } else {
      CancelCame(trace[k - 1], steps[k - 1], a, r);
      j := ReadWasTrue(trace, steps, k - 1, a, r);
    }
  }

  /** Over every run: a response that is uncertain was made so by the last write of a cancel whose first read
      found its run in doubt. */
  lemma UncertainWasSeen(trace: seq<World>, steps: seq<Step>, k: nat, r: nat) returns (j: nat, i: nat)
    requires Run(trace, steps) && k < |trace| && r in trace[k].resp && trace[k].resp[r].WithUncertain?
    ensures i < j < k && steps[j].WriteCanceled? && steps[i] == StartCancel(steps[j].a, r) && r in trace[i].doubt
    ensures Finishes(trace[j], steps[j], r, WithUncertain)
  {
    j := FinishedAt(trace, steps, k, r);
    RunSound(trace, steps, j);
    CleanExactly(trace[j], steps[j], r);
    i := ReadWasTrue(trace, steps, j, steps[j].a, r);
  }

  /** So a run ever finishes a response as plainly canceled under doubt exactly when it takes such a step. */
  lemma CleanInDoubtExactly(trace: seq<World>, steps: seq<Step>, r: nat)
    requires Run(trace, steps)
    ensures (exists j :: 0 <= j < |steps| && CleanInDoubt(trace[j], steps[j], r))
            <==> exists j :: 0 <= j < |steps| && BlindInDoubt(trace[j], steps[j], r)
  {
    forall j | 0 <= j < |steps|
      ensures CleanInDoubt(trace[j], steps[j], r) <==> BlindInDoubt(trace[j], steps[j], r) {
      RunSound(trace, steps, j);
      CleanExactly(trace[j], steps[j], r);
    }
  }

  /** A cancel past its transition that saw nothing and has no child to cancel writes its response clean. */
  lemma UnseenWritesClean(w: World, a: nat, r: nat)
    requires a in w.callers && w.callers[a] == CancelMoved(r, false) && Snapshot(w, r, [])
    requires r in w.runs && w.runs[r].Canceled? && r in w.resp && w.resp[r].Open?
    ensures var v := Do(Do(Do(w, ReadKids(a, [])), KidsDone(a)), CheckRun(a));
      && Can(v, WriteCanceled(a)) && Do(v, WriteCanceled(a)).resp[r] == Finished(Canceled)
      && Do(v, WriteCanceled(a)).doubt == w.doubt
  {
    var w1 := Do(w, ReadKids(a, []));
    assert w1 == At(w, a, CancelKids(r, false, [], []));
    var w2 := Do(w1, KidsDone(a));
    assert w2 == At(w1, a, CancelCheck(r, false, []));
    var w3 := Do(w2, CheckRun(a));
    assert w3 == At(w2, a, CancelWrite(r, false, []));
    assert Do(w3, WriteCanceled(a)).resp == Wrote(w.resp, r, Finished(Canceled));
  }

  /** Each of the three happens. The call is marked in the gap, and the run is canceled with the doubt unseen,
      as UnseenWritesClean needs it. */
  lemma DoubtInTheGap(w: World, a: nat, r: nat)
    requires a in w.callers && w.callers[a] == CancelRead(r, false)
    requires r in w.runs && !Terminal(w.runs[r])
    ensures var v := Do(Do(w, MarkDoubt(r)), MoveCanceled(a));
      && v.runs[r].Canceled? && r in v.doubt && v.callers[a] == CancelMoved(r, false) && v.resp == w.resp
      && (Snapshot(w, r, []) ==> Snapshot(v, r, []))
  {
    var v := Do(Do(w, MarkDoubt(r)), MoveCanceled(a));
    assert v.runs == w.runs[r := Canceled] && v.parent == w.parent;
    if Snapshot(w, r, []) {
      forall x ensures !(x in v.runs && !Terminal(v.runs[x]) && Descends(v.parent, x, r)) {
        assert x !in [];
      }
    }
  }

  /** A child is never asked: whatever doubt hangs over it, the cancel of an ancestor writes it clean. */
  lemma ChildInDoubt(w: World, a: nat, kid: nat)
    requires a in w.callers && w.callers[a].CancelKids? && w.callers[a].kids != [] && w.callers[a].kids[0] == kid
    requires kid in w.runs && !Terminal(w.runs[kid]) && kid in w.resp && w.resp[kid].Open? && kid in w.doubt
    ensures var v := Do(Do(w, MoveKid(a)), WriteKid(a));
      v.runs[kid].Canceled? && v.resp[kid] == Finished(Canceled) && kid in v.doubt
  {
  }

  /** Nor is a run whose engine reports canceled. */
  lemma EngineInDoubt(w: World, a: nat, r: nat)
    requires a !in w.callers && r in w.runs && !Terminal(w.runs[r]) && r in w.resp && w.resp[r].Open? && r in w.doubt
    ensures var v := Do(Do(w, EngineEnd(a, r, Cancel)), EngineFinish(a));
      v.runs[r].Canceled? && v.resp[r] == Finished(Canceled) && r in v.doubt
  {
  }
}
