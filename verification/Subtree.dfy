/** What a cancel leaves of the runs beneath its own (packages/coordinator/orchestration.go:166-182, 289-337):
    children are created, and descendants read and canceled, in transactions of their own. */
module Subtree {
  import opened Base
  import opened RunTable
  import opened Cancel

  /** The parent tree is over known runs. */
  predicate Rooted(w: World) {
    forall x :: x in w.parent ==> x in w.runs && w.parent[x] in w.runs
  }

  /** What no step takes back: runs stay, ended ones as they are, and a run keeps its parent or lack of one. */
  predicate Follows(was: World, now: World) {
    forall x :: x in was.runs ==>
      && x in now.runs && (Terminal(was.runs[x]) ==> now.runs[x] == was.runs[x])
      && (x in now.parent <==> x in was.parent) && (x in was.parent ==> now.parent[x] == was.parent[x])
  }

  /** A new run is not the child of one that has ended. */
  predicate NoLateChild(was: World, now: World) {
    forall x :: x in now.parent && x !in was.runs ==> !Over(was.runs, now.parent[x])
  }

  lemma StepFollows(w: World, s: Step)
    requires Rooted(w) && Can(w, s)
    ensures Rooted(Do(w, s)) && Follows(w, Do(w, s)) && NoLateChild(w, Do(w, s))
  {
    forall x | x in w.runs ensures x in Do(w, s).runs && (Terminal(w.runs[x]) ==> Do(w, s).runs[x] == w.runs[x]) {
      OneTerminal(w, s, x);
    }
  }

  lemma FollowsChain(a: World, b: World, c: World)
    requires Follows(a, b) && Follows(b, c) && NoLateChild(a, b) && NoLateChild(b, c)
    ensures Follows(a, c) && NoLateChild(a, c)
  {
    forall x | x in c.parent && x !in a.runs ensures !Over(a.runs, c.parent[x]) {
      if x in b.runs { assert !Over(a.runs, b.parent[x]); }
    }
  }

  lemma {:induction false} RunRooted(trace: seq<World>, steps: seq<Step>, k: nat)
    requires Run(trace, steps) && k < |trace|
    ensures Rooted(trace[k])
  {
    if k > 0 {
      RunRooted(trace, steps, k - 1);
      StepFollows(trace[k - 1], steps[k - 1]);
    }
  }

  lemma {:induction false} RunFollows(trace: seq<World>, steps: seq<Step>, j: nat, k: nat)
    requires Run(trace, steps) && j <= k < |trace|
    ensures Follows(trace[j], trace[k]) && NoLateChild(trace[j], trace[k])
  {
    RunRooted(trace, steps, j);
    if j < k {
      RunFollows(trace, steps, j, k - 1);
      RunRooted(trace, steps, k - 1);
      StepFollows(trace[k - 1], steps[k - 1]);
      FollowsChain(trace[j], trace[k - 1], trace[k]);
    }
  }

  /** A path up from a run that was there went the same way then. */
  lemma {:induction false} BelowBack(was: World, now: World, x: nat, r: nat, n: nat)
    requires Rooted(was) && Follows(was, now) && x in was.runs && Below(now.parent, x, r, n)
    ensures Below(was.parent, x, r, n)
    decreases n
  {
    if now.parent[x] != r { BelowBack(was, now, now.parent[x], r, n - 1); }
  }

  // --- the read a cancel works from ----------------------------------------------------------

  /** Past its read of the descendants of r, which found these. */
  predicate HasRead(w: World, a: nat, r: nat, all: seq<nat>) {
    a in w.callers && w.callers[a].r == r
    && (w.callers[a].CancelKids? || w.callers[a].CancelKid? || w.callers[a].CancelCheck?
        || w.callers[a].CancelWrite? || w.callers[a].Returned?)
    && w.callers[a].all == all
  }

  predicate Reads(w: World, s: Step, a: nat, r: nat, all: seq<nat>) {
    s == ReadKids(a, all) && a in w.callers && w.callers[a].CancelMoved? && w.callers[a].r == r
  }

  lemma ReadCame(w: World, s: Step, a: nat, r: nat, all: seq<nat>)
    requires Can(w, s) && HasRead(Do(w, s), a, r, all)
    ensures Reads(w, s, a, r, all) || HasRead(w, a, r, all)
  {
  }

  lemma LastStep(trace: seq<World>, steps: seq<Step>, k: nat, a: nat, r: nat, all: seq<nat>) returns (i: nat)
    requires Run(trace, steps) && k < |trace| && HasRead(trace[k], a, r, all)
    ensures i + 1 == k && (Reads(trace[i], steps[i], a, r, all) || HasRead(trace[i], a, r, all))
  {
    i := k - 1;
    var w, s := trace[i], steps[i];
    ReadCame(w, s, a, r, all);
  }

  lemma {:induction false} ReadAt(trace: seq<World>, steps: seq<Step>, k: nat, a: nat, r: nat, all: seq<nat>)
    returns (j: nat)
    requires Run(trace, steps) && k < |trace| && HasRead(trace[k], a, r, all)
    ensures j < k && Reads(trace[j], steps[j], a, r, all)
  {
    var i := LastStep(trace, steps, k, a, r, all);
    if Reads(trace[i], steps[i], a, r, all) { j := i; } else { j := ReadAt(trace, steps, i, a, r, all); }
  }

  // --- who is left ---------------------------------------------------------------------------

  /** A descendant that is live now and was there at the read was live and a descendant then. */
  lemma WasRead(was: World, now: World, x: nat, r: nat, kids: seq<nat>)
    requires Rooted(was) && Follows(was, now) && Snapshot(was, r, kids)
    requires x in was.runs && !Over(now.runs, x) && Descends(now.parent, x, r)
    ensures x in kids
  {
    var n: nat :| Below(now.parent, x, r, n);
    BelowBack(was, now, x, r, n);
  }

  /** When a cancel returns, every descendant that existed when it read them is over, whoever ended it; and so
      is every child of the run, whenever it was created. Whatever is still live beneath it is a descendant of
      a descendant, created since that read. */
  lemma SurvivorsAreNew(trace: seq<World>, steps: seq<Step>, k: nat, a: nat) returns (j: nat)
    requires Run(trace, steps) && k < |trace| && a in trace[k].callers && trace[k].callers[a].Returned?
    ensures var w, r := trace[k], trace[k].callers[a].r;
      && j < k && steps[j] == ReadKids(a, w.callers[a].all) && trace[j].callers[a].r == r
      && (forall x :: x in trace[j].runs && Descends(w.parent, x, r) ==> Over(w.runs, x))
      && (forall x :: x in w.parent && w.parent[x] == r ==> Over(w.runs, x))
  {
    var w, r := trace[k], trace[k].callers[a].r;
    j := ReadAt(trace, steps, k, a, r, w.callers[a].all);
    RunSound(trace, steps, k);
    RunSound(trace, steps, j);
    RunRooted(trace, steps, j);
    RunRooted(trace, steps, k);
    RunFollows(trace, steps, j, k);
    assert PcDone(w.runs, w.callers[a]) && PcDone(trace[j].runs, trace[j].callers[a]);
    forall x | x in trace[j].runs && Descends(w.parent, x, r) ensures Over(w.runs, x) {
      if !Over(w.runs, x) { WasRead(trace[j], w, x, r, w.callers[a].all); }
    }
    forall x | x in w.parent && w.parent[x] == r ensures Over(w.runs, x) {
      assert x in trace[j].runs;
      assert Below(w.parent, x, r, 1);
    }
  }

  /** They happen: a child that spawns after the read and before its own cancel leaves a live grandchild under a
      cancel that is done with its children. */
  lemma GrandchildEscapes(w: World, a: nat, r: nat, saw: bool, kid: nat, x: nat)
    requires a in w.callers && w.callers[a] == CancelKids(r, saw, [kid], [kid])
    requires kid in w.runs && !Terminal(w.runs[kid]) && kid in w.parent && w.parent[kid] == r && x !in w.runs
    ensures Can(w, NewRun(x, Some(kid)))
    ensures var w1 := Do(w, NewRun(x, Some(kid)));
      && Can(w1, MoveKid(a)) && Can(Do(w1, MoveKid(a)), WriteKid(a))
      && var v := Do(Do(w1, MoveKid(a)), WriteKid(a));
      && Can(v, KidsDone(a)) && v.runs[kid].Canceled? && x in v.runs && v.runs[x].Queued?
      && Descends(v.parent, x, r)
  {
    var w1 := Do(w, NewRun(x, Some(kid)));
    var w2 := Do(w1, MoveKid(a));
    assert [kid][1..] == [];
    assert w2 == At(Ended(w1, kid, Canceled), a, CancelKid(r, saw, kid, [], [kid]));
    var v := Do(w2, WriteKid(a));
    assert v.parent == w.parent[x := kid];
    assert Below(v.parent, kid, r, 1);
    assert Below(v.parent, x, r, 2);
  }
}
