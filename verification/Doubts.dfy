/** Where the doubt that a cancel reads comes from (storage/queries/responses.sql:223-229, 284-297,
    packages/coordinator/orchestration.go:716-742, 826-865): the rows of the tool ledger. */
module Doubts {
  import opened Base
  import opened RunTable
  import opened Commands
  import opened Tools
  import ToolResults
  import Cancel

  /** Calls whose replay class is irreversible or interactive; a call keeps its class. */
  type Classes = nat -> bool

  predicate Doubtful(s: CallState) {
    s.Uncertain? || s.ManualResolution?
  }

  predicate Casts(calls: map<nat, Call>, grave: Classes, call: nat, r: nat) {
    call in calls && calls[call].run == r && grave(call) && Doubtful(calls[call].state)
  }

  /** HasUncertainSideEffect, for every run at once. */
  function DoubtOf(calls: map<nat, Call>, grave: Classes): set<nat> {
    set call | call in calls && grave(call) && Doubtful(calls[call].state) :: calls[call].run
  }

  lemma InDoubt(calls: map<nat, Call>, grave: Classes, r: nat)
    ensures r in DoubtOf(calls, grave) <==> exists call :: Casts(calls, grave, call, r)
  {
    if r in DoubtOf(calls, grave) {
      var call :| call in calls && grave(call) && Doubtful(calls[call].state) && calls[call].run == r;
      assert Casts(calls, grave, call, r);
    }
  }

  /** The deed that marks a call of run r uncertain. */
  predicate Marks(t: Ledger, d: Deed, grave: Classes, r: nat) {
    d.MarkUncertain? && d.run == r && grave(d.call) && Live(t.sp, r) && d.call in t.calls
    && t.calls[d.call].run == r && Flying(t.calls[d.call].state)
  }

  /** The deed that settles the only doubt over run r. Escalating it to a human does not. */
  predicate Settles(t: Ledger, d: Deed, grave: Classes, r: nat) {
    d.Reconcile? && Answers(t, d, d.call) && Casts(t.calls, grave, d.call, r)
    && forall call :: call in t.calls && Casts(t.calls, grave, call, r) ==> call == d.call
  }

  // --- how doubt moves -----------------------------------------------------------------------

  /** The deed reconciles this uncertain call to an answer. */
  predicate Answers(t: Ledger, d: Deed, call: nat) {
    d.Reconcile? && d.call == call && !d.to.ManualResolution? && call in t.calls && t.calls[call].state.Uncertain?
  }

  /** The calls that cast doubt after a deed. */
  predicate CastsLater(t: Ledger, d: Deed, grave: Classes, call: nat, r: nat) {
    (Casts(t.calls, grave, call, r) && !Answers(t, d, call)) || (Marks(t, d, grave, r) && d.call == call)
  }

  lemma CastsAfter(t: Ledger, d: Deed, grave: Classes, call: nat, r: nat)
    requires CanDo(t, d)
    ensures Casts(Done(t, d).calls, grave, call, r) <==> CastsLater(t, d, grave, call, r)
  {
    StepCalls(t, d);
    if call in t.calls { RowsAfter(t, d, call); }
  }

  /** A run comes to be in doubt exactly by a mark on a live run's call in flight, and stops being so exactly
      when its only uncertain call is reconciled to an answer. */
  lemma DoubtMoves(t: Ledger, d: Deed, grave: Classes, r: nat)
    requires CanDo(t, d)
    ensures r in DoubtOf(Done(t, d).calls, grave)
            <==> Marks(t, d, grave, r) || (r in DoubtOf(t.calls, grave) && !Settles(t, d, grave, r))
  {
    var now := Done(t, d).calls;
    InDoubt(t.calls, grave, r);
    InDoubt(now, grave, r);
    forall call ensures Casts(now, grave, call, r) <==> CastsLater(t, d, grave, call, r) {
      CastsAfter(t, d, grave, call, r);
    }
    if Marks(t, d, grave, r) { assert Casts(now, grave, d.call, r); }
    if call :| Casts(t.calls, grave, call, r) && !Answers(t, d, call) { assert Casts(now, grave, call, r); }
    if r in DoubtOf(now, grave) && !Marks(t, d, grave, r) {
      var call :| Casts(now, grave, call, r);
      assert Casts(t.calls, grave, call, r);
    }
  }

  // --- the cancel's steps are the ledger's ---------------------------------------------------

  /** The two machines agree on the runs and on which are in doubt. */
  predicate Mirrors(w: Cancel.World, t: Ledger, grave: Classes) {
    && w.doubt == DoubtOf(t.calls, grave)
    && forall r :: r in t.sp.runs ==> r in w.runs && w.runs[r] == t.sp.runs[r].state
  }

  /** What a deed of the ledger is to a cancel. */
  function AsSeen(t: Ledger, d: Deed, grave: Classes): Option<Cancel.Step> {
    if d.MarkUncertain? && Marks(t, d, grave, d.run) then Some(Cancel.MarkDoubt(d.run))
    else if d.Reconcile? && d.call in t.calls && Settles(t, d, grave, t.calls[d.call].run)
    then Some(Cancel.ClearDoubt(t.calls[d.call].run))
    else None
  }

  /** Whatever the ledger does to doubt is a step the cancelling machine allows, or none: a mark on a live run,
      or the clearing of one. */
  lemma DoubtIsLedger(w: Cancel.World, t: Ledger, d: Deed, grave: Classes)
    requires CanDo(t, d) && Mirrors(w, t, grave)
    ensures var now := DoubtOf(Done(t, d).calls, grave);
      match AsSeen(t, d, grave)
      case Some(s) => Cancel.Can(w, s) && Cancel.Do(w, s) == w.(doubt := now)
      case None => now == w.doubt
  {
    var now := DoubtOf(Done(t, d).calls, grave);
    forall r ensures r in now <==> Marks(t, d, grave, r) || (r in w.doubt && !Settles(t, d, grave, r)) {
      DoubtMoves(t, d, grave, r);
    }
    if d.MarkUncertain? && Marks(t, d, grave, d.run) {
      assert now == w.doubt + {d.run};
    } else if AsSeen(t, d, grave).Some? {
      assert now == w.doubt - {t.calls[d.call].run};
    } else {
      assert now == w.doubt;
    }
  }

  /** A call left to a human keeps its run in doubt for good: no transaction settles it. */
  lemma ManualIsForGood(trace: seq<Ledger>, deeds: seq<Deed>, grave: Classes, j: nat, k: nat, call: nat)
    requires ToolResults.Run(trace, deeds) && j <= k < |trace|
    requires call in trace[j].calls && trace[j].calls[call].state.ManualResolution? && grave(call)
    ensures call in trace[k].calls && trace[k].calls[call].run in DoubtOf(trace[k].calls, grave)
  {
    ToolResults.SettledForGood(trace, deeds, j, k, call);
    InDoubt(trace[k].calls, grave, trace[k].calls[call].run);
    assert Casts(trace[k].calls, grave, call, trace[k].calls[call].run);
  }
}
