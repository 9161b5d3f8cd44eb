/** Whether an ended run's response gets finished. A run's terminal and its response's are written by two
    transactions (packages/coordinator/orchestration.go:317-407 and lease.go:222-271, finalize.go:214-274 and
    restore.go:312-337 in apps/control-plane/internal/execution). What lies between them is a debt of the caller
    that ended the run; nobody else pays it but a new cancel, of a run that was canceled. */
module Responses {
  import opened Base
  import opened RunTable
  import opened Cancel

  predicate CanceledIn(w: World, r: nat) {
    r in w.runs && w.runs[r].Canceled?
  }

  /** The caller's remaining transactions include the one that writes r's response. */
  predicate Owes(w: World, a: nat, r: nat) {
    a in w.callers &&
    match w.callers[a]
    case CancelRead(x, _) => x == r && CanceledIn(w, r)
    case CancelMoved(x, _) => x == r && CanceledIn(w, r)
    case CancelKids(x, _, _, _) => x == r && CanceledIn(w, r)
    case CancelKid(x, _, kid, _, _) => kid == r || (x == r && CanceledIn(w, r))
    case CancelCheck(x, _, _) => x == r && CanceledIn(w, r)
    case CancelWrite(x, _, _) => x == r
    case Returned(_, _) => false
    case EngineWrite(x, _, _) => x == r
    case Recovering(x) => x == r
    case SweepWrite(x) => x == r
  }

  predicate Unfinished(w: World, r: nat) {
    Over(w.runs, r) && r in w.resp && w.resp[r].Open?
  }

  /** The run has ended, its response is open, and no caller is left that will finish it. */
  predicate Dangles(w: World, r: nat) {
    Unfinished(w, r) && forall a :: a in w.callers ==> !Owes(w, a, r)
  }

  /** The one caller that owed the write is lost. */
  predicate Drops(w: World, s: Step, r: nat) {
    s.Stop? && Unfinished(w, r) && Owes(w, s.a, r) && forall b :: b in w.callers && Owes(w, b, r) ==> b == s.a
  }

  /** Somebody cancels the canceled run again. */
  predicate TakesUp(w: World, s: Step, r: nat) {
    s.StartCancel? && s.r == r && CanceledIn(w, r)
  }

  // --- one step ------------------------------------------------------------------------------

  lemma MoverOwes(w: World, s: Step, r: nat)
    requires Can(w, s) && !Over(w.runs, r) && Unfinished(Do(w, s), r)
    ensures (s.MoveCanceled? || s.MoveKid? || s.EngineEnd? || s.FailRecovery? || s.SweepFail?)
    ensures Owes(Do(w, s), s.a, r)
  {
  }

  lemma OwesKept(w: World, s: Step, a: nat, r: nat)
    requires Can(w, s) && Owes(w, a, r) && s != Stop(a) && Unfinished(w, r) && Unfinished(Do(w, s), r)
    ensures Owes(Do(w, s), a, r)
  {
    OneTerminal(w, s, r);
  }

  lemma NewCaller(w: World, s: Step, a: nat, r: nat)
    requires Can(w, s) && Over(w.runs, r) && a !in w.callers && Owes(Do(w, s), a, r)
    ensures s == StartCancel(a, r)
  {
    assert forall c :: Next(w.runs[r], c).None?;
  }

  lemma CallerMoves(w: World, s: Step, a: nat, r: nat)
    requires Can(w, s) && Over(w.runs, r) && a in w.callers && Owes(Do(w, s), a, r)
    requires CanceledIn(Do(w, s), r) <==> CanceledIn(w, r)
    ensures Owes(w, a, r)
  {
  }

  lemma NoNewOwer(w: World, s: Step, a: nat, r: nat)
    requires Can(w, s) && Over(w.runs, r) && Owes(Do(w, s), a, r)
    ensures Owes(w, a, r) || s == StartCancel(a, r)
  {
    OneTerminal(w, s, r);
    if a !in w.callers { NewCaller(w, s, a, r); } else { CallerMoves(w, s, a, r); }
  }

  lemma WriterOwed(w: World, s: Step, r: nat)
    requires Can(w, s) && Unfinished(w, r) && !Unfinished(Do(w, s), r)
    ensures (s.WriteKid? || s.WriteCanceled? || s.EngineFinish? || s.SweepFinish?) && Owes(w, s.a, r)
  {
    OneTerminal(w, s, r);
    assert forall c :: Next(w.runs[r], c).None?;
  }

  lemma WasUnfinished(w: World, s: Step, r: nat)
    requires Can(w, s) && Over(w.runs, r) && Unfinished(Do(w, s), r)
    ensures Unfinished(w, r)
  {
    OneTerminal(w, s, r);
  }

  lemma DanglesOn(w: World, s: Step, r: nat)
    requires Can(w, s) && Dangles(w, r)
    ensures Dangles(Do(w, s), r) <==> !TakesUp(w, s, r)
  {
    if !Unfinished(Do(w, s), r) {
      WriterOwed(w, s, r);
      assert false;
    }
    if TakesUp(w, s, r) { assert Owes(Do(w, s), s.a, r); }
    forall a | a in Do(w, s).callers && Owes(Do(w, s), a, r) ensures TakesUp(w, s, r) { NoNewOwer(w, s, a, r); }
  }

  lemma DropDangles(w: World, s: Step, r: nat)
    requires Can(w, s) && Drops(w, s, r)
    ensures Dangles(Do(w, s), r)
  {
    var now := Do(w, s);
    forall a | a in now.callers ensures !Owes(now, a, r) {
      if Owes(now, a, r) { assert Owes(w, a, r); }
    }
  }

  lemma DropsOnly(w: World, s: Step, r: nat)
    requires Can(w, s) && !Dangles(w, r) && Dangles(Do(w, s), r)
    ensures Drops(w, s, r)
  {
    if !Over(w.runs, r) {
      MoverOwes(w, s, r);
      assert false;
    }
    WasUnfinished(w, s, r);
    forall a | a in w.callers && Owes(w, a, r) ensures s == Stop(a) {
      if s != Stop(a) {
        OwesKept(w, s, a, r);
        assert false;
      }
    }
  }

  /** A step leaves an ended run's response to nobody exactly when it loses the only caller that owed it, or
      it was nobody's already and the step does not cancel a canceled run anew. */
  lemma DanglesExactly(w: World, s: Step, r: nat)
    requires Can(w, s)
    ensures Dangles(Do(w, s), r) <==> Drops(w, s, r) || (Dangles(w, r) && !TakesUp(w, s, r))
  {
    if Dangles(w, r) { DanglesOn(w, s, r); }
    else if Drops(w, s, r) { DropDangles(w, s, r); }
    else if Dangles(Do(w, s), r) { DropsOnly(w, s, r); }
  }

  // --- every run -----------------------------------------------------------------------------

  ghost predicate DroppedSince(trace: seq<World>, steps: seq<Step>, i: nat, k: nat, r: nat) {
    i < k < |trace| == |steps| + 1 && Drops(trace[i], steps[i], r)
    && forall j :: i < j < k ==> !TakesUp(trace[j], steps[j], r)
  }

  ghost predicate Dropped(trace: seq<World>, steps: seq<Step>, k: nat, r: nat) {
    exists i: nat :: DroppedSince(trace, steps, i, k, r)
  }

  lemma DroppedNext(trace: seq<World>, steps: seq<Step>, k: nat, r: nat)
    requires 0 < k < |trace| == |steps| + 1
    ensures Dropped(trace, steps, k, r) <==>
      Drops(trace[k - 1], steps[k - 1], r)
      || (Dropped(trace, steps, k - 1, r) && !TakesUp(trace[k - 1], steps[k - 1], r))
  {
    var m := k - 1;
    if Drops(trace[m], steps[m], r) { assert DroppedSince(trace, steps, m, k, r); }
    if Dropped(trace, steps, m, r) && !TakesUp(trace[m], steps[m], r) {
      var i: nat :| DroppedSince(trace, steps, i, m, r);
      assert DroppedSince(trace, steps, i, k, r);
    }
    if i: nat :| DroppedSince(trace, steps, i, k, r) && i < k - 1 { assert DroppedSince(trace, steps, i, m, r); }
  }

  /** In every run: an ended run's response is open and nobody's exactly when the last caller that owed it was
      lost, and nobody has cancelled a canceled run anew since. */
  lemma {:induction false} DanglesWhenDropped(trace: seq<World>, steps: seq<Step>, k: nat, r: nat)
    requires Run(trace, steps) && k < |trace|
    ensures Dangles(trace[k], r) <==> Dropped(trace, steps, k, r)
  {
    if k > 0 {
      DanglesWhenDropped(trace, steps, k - 1, r);
      DanglesExactly(trace[k - 1], steps[k - 1], r);
      DroppedNext(trace, steps, k, r);
    }
  }

  /** Once no caller owes r anything and none that did was lost, an ended run's response names a terminal. */
  lemma AnsweredUnlessDropped(trace: seq<World>, steps: seq<Step>, k: nat, r: nat)
    requires Run(trace, steps) && k < |trace| && Over(trace[k].runs, r)
    requires forall i :: 0 <= i < k ==> !steps[i].Stop?
    requires forall a :: a in trace[k].callers ==> !Owes(trace[k], a, r)
    ensures r in trace[k].resp && !trace[k].resp[r].Open?
  {
    RunSound(trace, steps, k);
    DanglesWhenDropped(trace, steps, k, r);
  }

  predicate GivenUp(w: World, r: nat) {
    Dangles(w, r) && !CanceledIn(w, r)
  }

  lemma GivenUpStays(w: World, s: Step, r: nat)
    requires Can(w, s) && GivenUp(w, r)
    ensures GivenUp(Do(w, s), r)
  {
    DanglesExactly(w, s, r);
    OneTerminal(w, s, r);
  }

  /** A run that completed or failed is never taken up again: lost between the two writes, its response stays
      open whatever is done afterwards. */
  lemma {:induction false} OpenForGood(trace: seq<World>, steps: seq<Step>, i: nat, k: nat, r: nat)
    requires Run(trace, steps) && i <= k < |trace| && GivenUp(trace[i], r)
    ensures GivenUp(trace[k], r)
  {
    if i < k {
      OpenForGood(trace, steps, i, k - 1, r);
      GivenUpStays(trace[k - 1], steps[k - 1], r);
    }
  }
}
