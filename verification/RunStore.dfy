/** Cancelling, sweeping and waking as one caller runs them with nobody in between (packages/coordinator/
    orchestration.go:317-407, lease.go:222-271, detach.go:90-143): the methods, and the proof that each is the
    run of the concurrent machine in which no other step intervenes. */
module RunTables {
  import opened Base
  import opened RunTable
  import opened Cancel
  import Detach

  /** CancelChildren over the children its query returned: each still live is canceled and its response
      finished, and the rest are skipped. */
  function KidsCanceled(runs: map<nat, RunState>, resp: map<nat, Resp>, kids: seq<nat>)
    : (map<nat, RunState>, map<nat, Resp>, nat)
    requires forall x :: x in kids ==> x in runs
  {
    if kids == [] then (runs, resp, 0)
    else
      var n := |kids| - 1;
      var (after, wrote, count) := KidsCanceled(runs, resp, kids[..n]);
      if kids[n] in after && !Terminal(after[kids[n]])
      then (after[kids[n] := Canceled], Wrote(wrote, kids[n], Finished(Canceled)), count + 1)
      else (after, wrote, count)
  }

  /** Every child named is over afterwards; nothing else about a run that was over changes. */
  lemma {:induction false} KidsAreOver(runs: map<nat, RunState>, resp: map<nat, Resp>, kids: seq<nat>, x: nat)
    requires forall y :: y in kids ==> y in runs
    ensures var after := KidsCanceled(runs, resp, kids).0;
      && (x in runs <==> x in after)
      && (x in kids ==> Over(after, x))
      && (x in runs ==> after[x] == if x in kids && !Terminal(runs[x]) then Canceled else runs[x])
  {
    if kids != [] {
      var n := |kids| - 1;
      assert kids == kids[..n] + [kids[n]];
      KidsAreOver(runs, resp, kids[..n], x);
      KidsAreOver(runs, resp, kids[..n], kids[n]);
    }
  }

  /** The children a cancel finds live, each once. */
  function LiveOf(runs: map<nat, RunState>, kids: seq<nat>): set<nat> {
    set x | x in kids && x in runs && !Terminal(runs[x])
  }

  /** A canceled child's open response is finished as canceled, and no other response changes. */
  function KidAnswer(runs: map<nat, RunState>, resp: map<nat, Resp>, kids: seq<nat>, x: nat): Resp
    requires x in resp
  {
    if x in LiveOf(runs, kids) && resp[x].Open? then Finished(Canceled) else resp[x]
  }

  lemma {:induction false} KidsAnswered(runs: map<nat, RunState>, resp: map<nat, Resp>, kids: seq<nat>, x: nat)
    requires forall y :: y in kids ==> y in runs
    ensures var wrote := KidsCanceled(runs, resp, kids).1;
      (x in resp <==> x in wrote) && (x in resp ==> wrote[x] == KidAnswer(runs, resp, kids, x))
  {
    if kids != [] {
      var n := |kids| - 1;
      assert kids == kids[..n] + [kids[n]];
      KidsAnswered(runs, resp, kids[..n], x);
      KidsAreOver(runs, resp, kids[..n], kids[n]);
    }
  }

  lemma {:induction false} KidsCounted(runs: map<nat, RunState>, resp: map<nat, Resp>, kids: seq<nat>)
    requires forall y :: y in kids ==> y in runs
    ensures KidsCanceled(runs, resp, kids).2 == |LiveOf(runs, kids)|
  {
    if kids != [] {
      var n := |kids| - 1;
      assert kids == kids[..n] + [kids[n]];
      KidsCounted(runs, resp, kids[..n]);
      KidsAreOver(runs, resp, kids[..n], kids[n]);
      var before := LiveOf(runs, kids[..n]);
      if Terminal(runs[kids[n]]) || kids[n] in before {
        assert LiveOf(runs, kids) == before;
      } else {
        assert LiveOf(runs, kids) == before + {kids[n]};
      }
    }
  }

  class RunStore {
    var runs: map<nat, RunState>
    var resp: map<nat, Resp>
    var doubt: set<nat>

    constructor (runs: map<nat, RunState>, resp: map<nat, Resp>, doubt: set<nat>)
      ensures this.runs == runs && this.resp == resp && this.doubt == doubt
    {
      this.runs, this.resp, this.doubt := runs, resp, doubt;
    }

    /** The run's row only: the journal and the commands are in SpineStore. None is ErrRunTerminal or
        ErrInvalidState. */
    method Transition(r: nat, c: RunCommand) returns (to: Option<RunState>)
      requires r in runs
      modifies this`runs
      ensures to == Next(old(runs)[r], c)
      ensures runs == if to.Some? then old(runs)[r := to.value] else old(runs)
    {
      to := RunTable.Apply(runs[r], c);
      if to.Some? { runs := runs[r := to.value]; }
    }

    method FinalizeResponse(r: nat, v: Resp)
      modifies this`resp
      ensures resp == Wrote(old(resp), r, v)
    {
      if r in resp && resp[r].Open? { resp := resp[r := v]; }
    }

    method CancelChildren(kids: seq<nat>) returns (count: nat)
      requires forall x :: x in kids ==> x in runs
      modifies this`runs, this`resp
      ensures (runs, resp, count) == KidsCanceled(old(runs), old(resp), kids)
      ensures runs.Keys == old(runs).Keys && resp.Keys == old(resp).Keys
      ensures forall x :: x in runs ==>
                runs[x] == if x in kids && !Terminal(old(runs)[x]) then Canceled else old(runs)[x]
      ensures forall x :: x in resp ==>
                resp[x] == if x in kids && !Terminal(old(runs)[x]) && old(resp)[x].Open? then Finished(Canceled)
                           else old(resp)[x]
      ensures count == |set x | x in kids && !Terminal(old(runs)[x])|
    {
      count := 0;
      for i := 0 to |kids|
        invariant runs.Keys == old(runs).Keys
        invariant (runs, resp, count) == KidsCanceled(old(runs), old(resp), kids[..i])
      {
        assert kids[..i + 1][..i] == kids[..i];
        assert kids[i] in kids;
        var to := Transition(kids[i], RunCommand.Cancel);
        if to.Some? {
          FinalizeResponse(kids[i], Finished(Canceled));
          count := count + 1;
        }
      }
      assert kids[..|kids|] == kids;
      forall x ensures x in old(runs) <==> x in runs { KidsAreOver(old(runs), old(resp), kids, x); }
      forall x | x in runs
        ensures runs[x] == if x in kids && !Terminal(old(runs)[x]) then Canceled else old(runs)[x] {
        KidsAreOver(old(runs), old(resp), kids, x);
      }
      forall x ensures x in old(resp) <==> x in resp { KidsAnswered(old(runs), old(resp), kids, x); }
      forall x | x in resp ensures resp[x] == KidAnswer(old(runs), old(resp), kids, x) {
        KidsAnswered(old(runs), old(resp), kids, x);
      }
      KidsCounted(old(runs), old(resp), kids);
      assert LiveOf(old(runs), kids) == set x | x in kids && !Terminal(old(runs)[x]);
    }

    /** CancelRunReconciled; the answer is the response as it stands. */
    method CancelRunReconciled(r: nat, kids: seq<nat>) returns (actual: Resp)
      requires r in runs && r in resp && forall x :: x in kids ==> x in runs
      modifies this`runs, this`resp
      ensures Over(runs, r) && forall x :: x in kids ==> Over(runs, x)
      ensures Terminal(old(runs)[r]) ==> runs[r] == old(runs)[r]
      ensures !Terminal(old(runs)[r]) ==> runs[r] == Canceled
      ensures r in resp && actual == resp[r]
      ensures runs[r].Canceled? ==> !actual.Open?
      ensures old(resp)[r].Open? && runs[r].Canceled? && r !in kids ==>
                actual == if r in doubt then WithUncertain else Finished(Canceled)
      ensures !old(resp)[r].Open? ==> actual == old(resp)[r]
      ensures runs.Keys == old(runs).Keys && resp.Keys == old(resp).Keys
      ensures forall x :: x in runs && x != r ==>
                runs[x] == if x in kids && !Terminal(old(runs)[x]) then Canceled else old(runs)[x]
      ensures forall x :: x in resp && x != r ==>
                resp[x] == if x in kids && !Terminal(old(runs)[x]) && old(resp)[x].Open? then Finished(Canceled)
                           else old(resp)[x]
    {
      var saw := r in doubt;
      var _ := Transition(r, RunCommand.Cancel);
      var _ := CancelChildren(kids);
      assert old(resp)[r].Open? && r !in kids ==> resp[r].Open?;
      if runs[r].Canceled? {
        FinalizeResponse(r, if saw then WithUncertain else Finished(Canceled));
      }
      actual := resp[r];
    }

    /** One pass of SweepDeadLetteredRuns over the runs its query returned: each that can still fail is
        failed and its response, if open, finished as failed; `owed` are the runs whose parents are to be
        woken. */
    method SweepDeadLetteredRuns(dead: seq<nat>) returns (owed: seq<nat>)
      requires forall x :: x in dead ==> x in runs
      modifies this`runs, this`resp
      ensures runs.Keys == old(runs).Keys
      ensures forall x :: x in dead ==> Over(runs, x)
      ensures forall x :: x in runs ==> runs[x] == if x in owed then Failed else old(runs)[x]
      ensures forall x :: x in owed ==> x in dead && x in old(runs) && !Terminal(old(runs)[x])
      ensures forall x :: x in dead && !Terminal(old(runs)[x]) ==> x in owed
      ensures resp.Keys == old(resp).Keys
      ensures forall x :: x in resp ==>
                resp[x] == if x in owed && old(resp)[x].Open? then Finished(Failed) else old(resp)[x]
    {
      owed := [];
      for i := 0 to |dead|
        invariant runs.Keys == old(runs).Keys
        invariant forall x :: x in dead[..i] ==> Over(runs, x)
        invariant forall x :: x in runs ==> runs[x] == if x in owed then Failed else old(runs)[x]
        invariant forall x :: x in owed ==> x in dead[..i] && x in old(runs) && !Terminal(old(runs)[x])
        invariant forall x :: x in dead[..i] && !Terminal(old(runs)[x]) ==> x in owed
        invariant resp.Keys == old(resp).Keys
        invariant forall x :: x in resp ==>
                    resp[x] == if x in owed && old(resp)[x].Open? then Finished(Failed) else old(resp)[x]
      {
        assert dead[..i + 1] == dead[..i] + [dead[i]];
        assert dead[i] in dead;
        var to := Transition(dead[i], Fail);
        if to.Some? {
          FinalizeResponse(dead[i], Finished(Failed));
          owed := owed + [dead[i]];
        }
      }
      assert dead[..|dead|] == dead;
    }
  }

  // --- the detached parent -------------------------------------------------------------------

  /** WakeDetachedParent with nothing between its statements. */
  predicate WouldWake(n: Detach.Nest, p: nat) {
    p in n.runs && n.runs[p].Waiting? && p !in n.pauses && !Detach.HasLive(n, p)
  }

  class ParentStore {
    var runs: map<nat, RunState>
    var parent: map<nat, nat>
    var pauses: set<nat>
    var jobs: seq<nat>

    constructor (runs: map<nat, RunState>, parent: map<nat, nat>)
      ensures this.runs == runs && this.parent == parent && pauses == {} && jobs == []
    {
      this.runs, this.parent, pauses, jobs := runs, parent, {}, [];
    }

    ghost function View(): Detach.Nest
      reads this
    {
      Detach.Nest(runs, parent, pauses, map[], jobs, {})
    }

    /** HasNonTerminalChildRun, row by row. */
    method HasLiveChild(p: nat) returns (live: bool)
      ensures live == Detach.HasLive(View(), p)
    {
      live := false;
      var left := parent.Keys;
      while left != {}
        invariant left <= parent.Keys
        invariant live == exists c :: c in parent && c !in left && parent[c] == p && Detach.Live(View(), c)
        decreases |left|
      {
        var c :| c in left;
        ghost var before := left;
        left := left - {c};
        if parent[c] == p && c in runs && !Terminal(runs[c]) {
          assert Detach.Live(View(), c);
          live := true;
        }
        assert forall x :: x in parent && x !in left <==> x in parent && (x !in before || x == c);
      }
    }

    method WakeDetachedParent(p: nat) returns (woke: bool)
      modifies this`runs, this`jobs
      ensures woke <==> WouldWake(old(View()), p)
      ensures woke <==> p in old(runs) && old(runs)[p].Waiting? && p !in pauses
                        && forall c :: c in parent && parent[c] == p && c in old(runs) ==> Terminal(old(runs)[c])
      ensures runs == if woke then old(runs)[p := Running] else old(runs)
      ensures jobs == if woke then old(jobs) + [p] else old(jobs)
    {
      if p !in runs || !runs[p].Waiting? { return false; }
      if p in pauses { return false; }
      var live := HasLiveChild(p);
      if live { return false; }
      runs := runs[p := Running];
      jobs := jobs + [p];
      return true;
    }
  }

  /** The concurrent machine, with one waker and nobody in between, wakes exactly when the method does and
      leaves the same rows. */
  lemma WakeAloneIsARun(n: Detach.Nest, a: nat, p: nat)
    requires a in n.wakers && n.wakers[a] == Detach.Waker(p, Detach.Owed) && p in n.runs && !Detach.Locked(n, p)
    ensures var n1 := Detach.Do(n, Detach.Lock(a));
      if !n.runs[p].Waiting? then n1 == Detach.Quit(n, a)
      else
        var n2 := Detach.Do(n1, Detach.CheckPause(a));
        if p in n.pauses then n2 == Detach.Quit(n, a)
        else
          var n3 := Detach.Do(n2, Detach.CheckLive(a));
          if Detach.HasLive(n, p) then n3 == Detach.Quit(n, a)
          else WouldWake(n, p) && Detach.Do(n3, Detach.Commit(a)) == Detach.Woken(Detach.Quit(n, a), p)
  {
    var n1 := Detach.Do(n, Detach.Lock(a));
    if n.runs[p].Waiting? && p !in n.pauses {
      var n2 := Detach.Do(n1, Detach.CheckPause(a));
      SameRowsLive(n, n2, p);
      assert n2.wakers - {a} == n.wakers - {a};
    }
    assert n1.wakers - {a} == n.wakers - {a};
  }

  lemma SameRowsLive(n: Detach.Nest, m: Detach.Nest, p: nat)
    requires n.runs == m.runs && n.parent == m.parent
    ensures Detach.HasLive(n, p) == Detach.HasLive(m, p)
  {
    forall c ensures Detach.Live(n, c) == Detach.Live(m, c) { }
  }
}
