/** Releasing a parent and waking it when its detached children are done (packages/coordinator/detach.go:
    63-143, orchestration.go:166-225, lease.go:222-271, apps/control-plane/internal/execution/detach.go:29-65,
    finalize.go:283-292). The wake is a transaction of four statements under the parent's row lock, each reading
    what is committed when it runs; children come and end, pauses arrive and other wakers come in between. */
module Detach {
  import opened Base
  import opened RunTable

  /** Owed: the wake is due and has not begun. The others hold the parent's lock. */
  datatype Stage = Owed | Holding | PauseClear | LiveClear

  datatype Waker = Waker(p: nat, stage: Stage)

  /** pauses: runs with a pause command queued. released is history: the runs now waiting because they were
      released to their children. */
  datatype Nest = Nest(
    runs: map<nat, RunState>, parent: map<nat, nat>, pauses: set<nat>, wakers: map<nat, Waker>, jobs: seq<nat>,
    released: set<nat>)

  // --- reads ---------------------------------------------------------------------------------

  predicate Live(n: Nest, c: nat) {
    c in n.runs && !Terminal(n.runs[c])
  }

  /** HasNonTerminalChildRun. */
  predicate HasLive(n: Nest, p: nat) {
    exists c :: c in n.parent && n.parent[c] == p && Live(n, c)
  }

  predicate Locked(n: Nest, r: nat) {
    exists a :: a in n.wakers && n.wakers[a].p == r && !n.wakers[a].stage.Owed?
  }

  predicate Outstanding(n: Nest, p: nat) {
    exists a :: a in n.wakers && n.wakers[a].p == p
  }

  // --- steps ---------------------------------------------------------------------------------

  datatype Step =
    | NewRoot(r: nat)
    | Spawn(kid: nat, p: nat, detached: bool)
    | Proceed(r: nat, c: RunCommand)
    | WaitOtherwise(r: nat)
    | WakeOtherwise(r: nat)
    | Release(a: nat, p: nat)
    | Finish(a: nat, r: nat, c: RunCommand)
    | EndSilently(r: nat, c: RunCommand)
    | QueuePause(r: nat)
    | SettlePause(r: nat)
    | Lock(a: nat)
    | CheckPause(a: nat)
    | CheckLive(a: nat)
    | Commit(a: nat)
    | Crash(a: nat)

  predicate At(n: Nest, a: nat, stage: Stage) {
    a in n.wakers && n.wakers[a].stage == stage
  }

  predicate Free(n: Nest, r: nat) {
    r in n.runs && !Locked(n, r)
  }

  predicate CanEnd(n: Nest, r: nat, c: RunCommand) {
    Free(n, r) && Next(n.runs[r], c).Some? && Terminal(Next(n.runs[r], c).value)
  }

  /** Spawn is CreateChildRun: under the parent's row lock, any parent that has not ended may be given a child,
      a waiting one too - by an attempt that lost its lease and does not know it. */
  predicate Can(n: Nest, s: Step) {
    match s
    case NewRoot(r) => r !in n.runs && r !in n.parent
    case Spawn(c, p, _) => c !in n.runs && c !in n.parent && Free(n, p) && !Terminal(n.runs[p])
    case Proceed(r, c) => Free(n, r) && (c.Provision? || c.Start?) && Next(n.runs[r], c).Some?
    case WaitOtherwise(r) => Free(n, r) && n.runs[r].Running?
    case WakeOtherwise(r) => Free(n, r) && n.runs[r].Waiting?
    case Release(a, p) => a !in n.wakers && Free(n, p) && n.runs[p].Running?
    case Finish(a, r, c) => a !in n.wakers && CanEnd(n, r, c)
    case EndSilently(r, c) => CanEnd(n, r, c)
    case QueuePause(r) => r in n.runs
    case SettlePause(r) => true
    case Lock(a) => At(n, a, Owed) && Free(n, n.wakers[a].p)
    case CheckPause(a) => At(n, a, Holding)
    case CheckLive(a) => At(n, a, PauseClear)
    case Commit(a) => At(n, a, LiveClear) && n.wakers[a].p in n.runs
    case Crash(a) => a in n.wakers
  }

  function Quit(n: Nest, a: nat): Nest {
    n.(wakers := n.wakers - {a})
  }

  function Forward(n: Nest, a: nat, stage: Stage): Nest
    requires a in n.wakers
  {
    n.(wakers := n.wakers[a := n.wakers[a].(stage := stage)])
  }

  function Ended(n: Nest, r: nat, c: RunCommand): Nest
    requires CanEnd(n, r, c)
  {
    n.(runs := n.runs[r := Next(n.runs[r], c).value], released := n.released - {r})
  }

  function Woken(n: Nest, r: nat): Nest {
    n.(runs := n.runs[r := Running], released := n.released - {r}, jobs := n.jobs + [r])
  }

  function Do(n: Nest, s: Step): Nest
    requires Can(n, s)
  {
    match s
    case NewRoot(r) => n.(runs := n.runs[r := Queued], jobs := n.jobs + [r])
    case Spawn(c, p, detached) =>
      n.(runs := n.runs[c := Queued], parent := n.parent[c := p], jobs := if detached then n.jobs + [c] else n.jobs)
    case Proceed(r, c) => n.(runs := n.runs[r := Next(n.runs[r], c).value])
    case WaitOtherwise(r) => n.(runs := n.runs[r := Waiting])
    case WakeOtherwise(r) => Woken(n, r)
    case Release(a, p) =>
      n.(runs := n.runs[p := Waiting], released := n.released + {p}, wakers := n.wakers[a := Waker(p, Owed)])
    case Finish(a, r, c) =>
      var over := Ended(n, r, c);
      if r in n.parent then over.(wakers := n.wakers[a := Waker(n.parent[r], Owed)]) else over
    case EndSilently(r, c) => Ended(n, r, c)
    case QueuePause(r) => n.(pauses := n.pauses + {r})
    case SettlePause(r) => n.(pauses := n.pauses - {r})
    case Lock(a) => if n.runs[n.wakers[a].p].Waiting? then Forward(n, a, Holding) else Quit(n, a)
    case CheckPause(a) => if n.wakers[a].p in n.pauses then Quit(n, a) else Forward(n, a, PauseClear)
    case CheckLive(a) => if HasLive(n, n.wakers[a].p) then Quit(n, a) else Forward(n, a, LiveClear)
    case Commit(a) => Woken(Quit(n, a), n.wakers[a].p)
    case Crash(a) => Quit(n, a)
  }

  // --- the invariant -------------------------------------------------------------------------

  /** A waker that holds the lock found its parent waiting, and keeps it so; one past the last check knows
      every child is over. */
  predicate WakerTrue(n: Nest, w: Waker) {
    && (!w.stage.Owed? ==> w.p in n.runs && n.runs[w.p].Waiting?)
    && (w.stage.LiveClear? ==> !HasLive(n, w.p))
  }

  predicate WakersTrue(n: Nest) {
    forall a :: a in n.wakers ==> WakerTrue(n, n.wakers[a])
  }

  /** The row lock: one holder. */
  predicate OneHolder(n: Nest) {
    forall a, b | a in n.wakers && b in n.wakers && n.wakers[a].p == n.wakers[b].p ::
      Holds(n.wakers[a]) && Holds(n.wakers[b]) ==> a == b
  }

  predicate Holds(w: Waker) {
    !w.stage.Owed?
  }

  predicate ReleasedWait(n: Nest) {
    (forall p :: p in n.released ==> p in n.runs && n.runs[p].Waiting?)
    && (forall c :: c in n.parent ==> c in n.runs)
  }

  predicate Inv(n: Nest) {
    WakersTrue(n) && OneHolder(n) && ReleasedWait(n)
  }

  // --- preservation --------------------------------------------------------------------------

  /** Which run a step moves. */
  function Target(n: Nest, s: Step): Option<nat>
    requires Can(n, s)
  {
    match s
    case NewRoot(r) => Some(r)
    case Spawn(c, _, _) => Some(c)
    case Proceed(r, _) => Some(r)
    case WaitOtherwise(r) => Some(r)
    case WakeOtherwise(r) => Some(r)
    case Release(_, p) => Some(p)
    case Finish(_, r, _) => Some(r)
    case EndSilently(r, _) => Some(r)
    case Commit(a) => Some(n.wakers[a].p)
    case _ => None
  }

  lemma OnlyTargetMoves(n: Nest, s: Step, r: nat)
    requires Can(n, s) && Target(n, s) != Some(r)
    ensures r in Do(n, s).runs <==> r in n.runs
    ensures r in n.runs ==> Do(n, s).runs[r] == n.runs[r]
    ensures r in Do(n, s).parent <==> r in n.parent
    ensures r in n.parent ==> Do(n, s).parent[r] == n.parent[r]
  {
  }

  predicate SpawnsFor(s: Step, p: nat) {
    s.Spawn? && s.p == p
  }

  /** Only a spawn gives a parent a live child it did not have. */
  lemma NoNewLive(n: Nest, s: Step, p: nat)
    requires Can(n, s) && ReleasedWait(n) && WakersTrue(n) && !HasLive(n, p) && !SpawnsFor(s, p)
    ensures !HasLive(Do(n, s), p)
  {
    forall c | c in Do(n, s).parent && Do(n, s).parent[c] == p ensures !Live(Do(n, s), c) {
      if Target(n, s) != Some(c) {
        OnlyTargetMoves(n, s, c);
        assert !Live(n, c);
      } else if c in n.parent {
        assert !Live(n, c);
      }
    }
  }

  lemma HolderKeepsWaiting(n: Nest, s: Step, a: nat)
    requires Inv(n) && Can(n, s) && a in n.wakers && !n.wakers[a].stage.Owed?
    ensures s != Commit(a) ==> n.wakers[a].p in Do(n, s).runs && Do(n, s).runs[n.wakers[a].p].Waiting?
  {
    var p := n.wakers[a].p;
    assert WakerTrue(n, n.wakers[a]);
    assert Locked(n, p);
    if Target(n, s) != Some(p) { OnlyTargetMoves(n, s, p); }
  }

  lemma StepWaker(n: Nest, s: Step, a: nat)
    requires Inv(n) && Can(n, s) && a in Do(n, s).wakers
    ensures WakerTrue(Do(n, s), Do(n, s).wakers[a])
  {
    if a in n.wakers {
      assert WakerTrue(n, n.wakers[a]);
      var p := n.wakers[a].p;
      if !n.wakers[a].stage.Owed? {
        HolderKeepsWaiting(n, s, a);
        assert Locked(n, p);
        if n.wakers[a].stage.LiveClear? { NoNewLive(n, s, p); }
      }
    }
  }

  lemma StepHolder(n: Nest, s: Step)
    requires Inv(n) && Can(n, s)
    ensures OneHolder(Do(n, s))
  {
    if s.Lock? { assert !Locked(n, n.wakers[s.a].p); }
  }

  lemma StepReleased(n: Nest, s: Step)
    requires Inv(n) && Can(n, s)
    ensures ReleasedWait(Do(n, s))
  {
  }

  lemma StepInv(n: Nest, s: Step)
    requires Inv(n) && Can(n, s)
    ensures Inv(Do(n, s))
  {
    StepHolder(n, s);
    StepReleased(n, s);
    forall a | a in Do(n, s).wakers ensures WakerTrue(Do(n, s), Do(n, s).wakers[a]) { StepWaker(n, s, a); }
  }

  // --- losing the wake -----------------------------------------------------------------------

  /** Not released, or somebody to wait for, or a wake outstanding. */
  predicate Served(n: Nest, p: nat) {
    p in n.released ==> HasLive(n, p) || Outstanding(n, p)
  }

  /** c is the one child p is still waiting for. */
  predicate LastChild(n: Nest, c: nat, p: nat) {
    c in n.parent && n.parent[c] == p && c != p && Live(n, c)
    && forall x :: x in n.parent && n.parent[x] == p && Live(n, x) ==> x == c
  }

  predicate LastWaker(n: Nest, a: nat, p: nat) {
    a in n.wakers && n.wakers[a].p == p && forall b :: b in n.wakers && n.wakers[b].p == p ==> b == a
  }

  /** The three ways to lose a released parent. Its last live child ends by a path that owes no wake, with
      none outstanding; or, no child left, the one process that owed the wake is lost; or that one wake finds
      a pause queued and gives way. */
  predicate Strands(n: Nest, s: Step, p: nat) {
    p in n.released
    && (|| (s.EndSilently? && LastChild(n, s.r, p) && !Outstanding(n, p))
        || (s.Crash? && LastWaker(n, s.a, p) && !HasLive(n, p))
        || (s.CheckPause? && LastWaker(n, s.a, p) && !HasLive(n, p) && p in n.pauses))
  }

  lemma LiveStays(n: Nest, s: Step, c: nat, p: nat)
    requires Can(n, s) && c in n.parent && n.parent[c] == p && Live(n, c) && Target(n, s) != Some(c)
    ensures HasLive(Do(n, s), p)
  {
    OnlyTargetMoves(n, s, c);
    assert Live(Do(n, s), c);
  }

  lemma WakerStays(n: Nest, s: Step, a: nat, p: nat)
    requires Can(n, s) && a in n.wakers && n.wakers[a].p == p && a in Do(n, s).wakers
    ensures Outstanding(Do(n, s), p)
  {
    assert Do(n, s).wakers[a].p == p;
  }

  lemma ChildKept(n: Nest, s: Step, p: nat)
    requires Inv(n) && Can(n, s) && p in n.released && HasLive(n, p) && !Strands(n, s, p)
    ensures Served(Do(n, s), p)
  {
    var c :| c in n.parent && n.parent[c] == p && Live(n, c);
    if Target(n, s) != Some(c) {
      LiveStays(n, s, c, p);
    } else if x :| x in n.parent && n.parent[x] == p && Live(n, x) && x != c {
      LiveStays(n, s, x, p);
    } else if s.Finish? {
      assert Do(n, s).wakers[s.a].p == p;
    } else if s.EndSilently? && c != p {
      var a :| a in n.wakers && n.wakers[a].p == p;
      WakerStays(n, s, a, p);
    } else if !s.EndSilently? {
      assert Live(Do(n, s), c);
    }
  }

  lemma WakerKept(n: Nest, s: Step, p: nat)
    requires Inv(n) && Can(n, s) && p in n.released && !HasLive(n, p) && Outstanding(n, p) && !Strands(n, s, p)
    ensures Served(Do(n, s), p)
  {
    var a :| a in n.wakers && n.wakers[a].p == p;
    assert WakerTrue(n, n.wakers[a]);
    if a in Do(n, s).wakers {
      WakerStays(n, s, a, p);
    } else if b :| b in n.wakers && n.wakers[b].p == p && b != a {
      WakerStays(n, s, b, p);
    }
  }

  lemma StrandsLoses(n: Nest, s: Step, p: nat)
    requires Inv(n) && Can(n, s) && Strands(n, s, p)
    ensures !Served(Do(n, s), p)
  {
    var m := Do(n, s);
    assert m.parent == n.parent;
    forall x | x in m.parent && m.parent[x] == p ensures !Live(m, x) {
      if Target(n, s) != Some(x) {
        OnlyTargetMoves(n, s, x);
        assert !Live(n, x);
      }
    }
  }

  /** A step loses a served parent exactly when it is one of the three. */
  lemma LostExactly(n: Nest, s: Step, p: nat)
    requires Inv(n) && Can(n, s) && Served(n, p)
    ensures !Served(Do(n, s), p) <==> Strands(n, s, p)
  {
    if Strands(n, s, p) {
      StrandsLoses(n, s, p);
    } else if p !in n.released {
      if s.Release? && s.p == p { assert Do(n, s).wakers[s.a].p == p; }
    } else if HasLive(n, p) {
      ChildKept(n, s, p);
    } else {
      WakerKept(n, s, p);
    }
  }

  lemma LostIsNotLostAgain(n: Nest, s: Step, p: nat)
    requires !Served(n, p)
    ensures !Strands(n, s, p)
  {
  }

  /** What brings a lost parent on: something else wakes it, it ends, or it is given another child, whose end
      will owe it a wake. */
  predicate Rescues(s: Step, p: nat) {
    s == WakeOtherwise(p) || (s.Finish? && s.r == p) || (s.EndSilently? && s.r == p) || SpawnsFor(s, p)
  }

  lemma SpawnServes(n: Nest, s: Step, p: nat)
    requires Can(n, s) && SpawnsFor(s, p)
    ensures HasLive(Do(n, s), p)
  {
    assert Live(Do(n, s), s.kid) && Do(n, s).parent[s.kid] == p;
  }

  /** Nothing the children it has or their wakers can still do brings a lost parent back. */
  lemma LostUntilRescued(n: Nest, s: Step, p: nat)
    requires Inv(n) && Can(n, s) && !Served(n, p)
    ensures Served(Do(n, s), p) <==> Rescues(s, p)
  {
    if SpawnsFor(s, p) { SpawnServes(n, s, p); } else { NoNewLive(n, s, p); }
    forall a | a in Do(n, s).wakers ensures Do(n, s).wakers[a].p != p {
      if a in n.wakers {
        assert Do(n, s).wakers[a].p == n.wakers[a].p;
      } else if s.Finish? && s.r in n.parent && n.parent[s.r] == p {
        assert Live(n, s.r);
      }
    }
    if s.Commit? { assert n.wakers[s.a].p != p; }
  }

  // --- every run -----------------------------------------------------------------------------

  predicate Start(n: Nest) {
    n.runs == map[] && n.parent == map[] && n.wakers == map[] && n.released == {}
  }

  ghost predicate Run(trace: seq<Nest>, steps: seq<Step>) {
    |trace| == |steps| + 1 && Start(trace[0])
    && forall k :: 0 <= k < |steps| ==> Can(trace[k], steps[k]) && trace[k + 1] == Do(trace[k], steps[k])
  }

  lemma {:induction false} RunInv(trace: seq<Nest>, steps: seq<Step>, k: nat)
    requires Run(trace, steps) && k < |trace|
    ensures Inv(trace[k])
  {
    if k > 0 {
      RunInv(trace, steps, k - 1);
      StepInv(trace[k - 1], steps[k - 1]);
    }
  }

  /** Lost at step i, and nothing since brought it on. */
  ghost predicate LostSince(trace: seq<Nest>, steps: seq<Step>, i: nat, k: nat, p: nat) {
    i < k < |trace| == |steps| + 1 && Strands(trace[i], steps[i], p)
    && forall j :: i < j < k ==> !Rescues(steps[j], p)
  }

  ghost predicate Lost(trace: seq<Nest>, steps: seq<Step>, k: nat, p: nat) {
    exists i: nat :: LostSince(trace, steps, i, k, p)
  }

  lemma LostNext(trace: seq<Nest>, steps: seq<Step>, k: nat, p: nat)
    requires 0 < k < |trace| == |steps| + 1
    ensures Lost(trace, steps, k, p)
            <==> Strands(trace[k - 1], steps[k - 1], p) || (!Rescues(steps[k - 1], p) && Lost(trace, steps, k - 1, p))
  {
    if Strands(trace[k - 1], steps[k - 1], p) { assert LostSince(trace, steps, k - 1, k, p); }
    var j := k - 1;
    if !Rescues(steps[j], p) && Lost(trace, steps, j, p) {
      var i: nat :| LostSince(trace, steps, i, j, p);
      assert LostSince(trace, steps, i, k, p);
    }
    if i: nat :| LostSince(trace, steps, i, k, p) && i < k - 1 { assert LostSince(trace, steps, i, k - 1, p); }
  }

  /** No lost wake, exactly: in every state of every run, a parent released to its children has a live child or
      a wake outstanding, unless one of the three ways lost it and since then nothing else has woken it, ended it
      or given it another child. */
  lemma {:induction false} NoLostWake(trace: seq<Nest>, steps: seq<Step>, k: nat, p: nat)
    requires Run(trace, steps) && k < |trace|
    ensures p in trace[k].released && !HasLive(trace[k], p) && !Outstanding(trace[k], p)
            <==> Lost(trace, steps, k, p)
  {
    if k > 0 {
      NoLostWake(trace, steps, k - 1, p);
      RunInv(trace, steps, k - 1);
      var n, s := trace[k - 1], steps[k - 1];
      LostNext(trace, steps, k, p);
      if Served(n, p) { LostExactly(n, s, p); } else { LostUntilRescued(n, s, p); LostIsNotLostAgain(n, s, p); }
    }
  }

  /** An outstanding wake is not a formality: with no live child and no pause queued it goes through, from
      wherever it stands, and re-enters the parent with one job. */
  lemma OutstandingWakes(n: Nest, a: nat)
    requires Inv(n) && a in n.wakers
    requires var p := n.wakers[a].p;
      && p in n.runs && n.runs[p].Waiting? && p !in n.pauses && !HasLive(n, p)
      && (n.wakers[a].stage.Owed? ==> !Locked(n, p))
    ensures var p := n.wakers[a].p;
      var n1 := if n.wakers[a].stage.Owed? then Do(n, Lock(a)) else n;
      var n2 := if n1.wakers[a].stage.Holding? then Do(n1, CheckPause(a)) else n1;
      var n3 := if n2.wakers[a].stage.PauseClear? then Do(n2, CheckLive(a)) else n2;
      && Can(n3, Commit(a)) && Do(n3, Commit(a)).runs[p].Running? && Do(n3, Commit(a)).jobs == n.jobs + [p]
  {
    var p := n.wakers[a].p;
    var n1 := if n.wakers[a].stage.Owed? then Do(n, Lock(a)) else n;
    var n2 := if n1.wakers[a].stage.Holding? then Do(n1, CheckPause(a)) else n1;
    assert !HasLive(n2, p) by {
      forall c | c in n2.parent && n2.parent[c] == p ensures !Live(n2, c) { assert !Live(n, c); }
    }
  }

  /** A wake that commits finds every child over, so the parent folds results and re-spawns nothing: the row
      lock it holds keeps a new child out between its last look and its commit. */
  lemma WakeFindsChildrenDone(trace: seq<Nest>, steps: seq<Step>, k: nat)
    requires Run(trace, steps) && k < |steps| && steps[k].Commit?
    ensures var p := trace[k].wakers[steps[k].a].p;
      && !HasLive(trace[k], p) && trace[k].runs[p].Waiting?
      && trace[k + 1].runs[p].Running? && trace[k + 1].jobs == trace[k].jobs + [p]
  {
    RunInv(trace, steps, k);
    assert WakerTrue(trace[k], trace[k].wakers[steps[k].a]);
  }

  // --- each of the three happens -------------------------------------------------------------

  /** Waiting, with nobody to wait for and nobody to wake it; whether or not it was released. */
  predicate Stuck(n: Nest, p: nat) {
    p in n.runs && n.runs[p].Waiting? && !HasLive(n, p) && !Outstanding(n, p)
  }

  /** A last child that ends without a finalize or a dead-letter sweep - cancelled on its own, timed out in
      the queue or in a capacity park - leaves its waiting parent stuck. */
  lemma SilentEndStrands(n: Nest, c: nat, p: nat, cmd: RunCommand)
    requires p in n.runs && n.runs[p].Waiting? && LastChild(n, c, p) && !Outstanding(n, p)
    requires Can(n, EndSilently(c, cmd))
    ensures Stuck(Do(n, EndSilently(c, cmd)), p)
  {
    var m := Do(n, EndSilently(c, cmd));
    forall x | x in m.parent && m.parent[x] == p ensures !Live(m, x) {
      assert x != c ==> !Live(n, x);
    }
  }

  /** So does a process that dies between its child's terminal and the wake it owes: the next attempt on
      that child finds it terminal and returns. */
  lemma CrashStrands(n: Nest, a: nat)
    requires a in n.wakers && n.wakers[a].p in n.runs && n.runs[n.wakers[a].p].Waiting?
    requires !HasLive(n, n.wakers[a].p)
    requires LastWaker(n, a, n.wakers[a].p)
    ensures Stuck(Do(n, Crash(a)), n.wakers[a].p)
  {
    var p, m := n.wakers[a].p, Do(n, Crash(a));
    forall c | c in m.parent && m.parent[c] == p ensures !Live(m, c) { assert !Live(n, c); }
  }

  /** And a pause queued when the wake looks: the wake gives way, and only a resume will bring the run on. */
  lemma PauseStrands(n: Nest, a: nat)
    requires At(n, a, Holding) && n.wakers[a].p in n.runs && n.runs[n.wakers[a].p].Waiting?
    requires n.wakers[a].p in n.pauses && !HasLive(n, n.wakers[a].p)
    requires LastWaker(n, a, n.wakers[a].p)
    ensures Stuck(Do(n, CheckPause(a)), n.wakers[a].p)
  {
    var p, m := n.wakers[a].p, Do(n, CheckPause(a));
    forall c | c in m.parent && m.parent[c] == p ensures !Live(m, c) { assert !Live(n, c); }
  }

  // --- jobs and pauses -----------------------------------------------------------------------

  predicate BornQueued(s: Step, r: nat) {
    s == NewRoot(r) || (s.Spawn? && s.kid == r && s.detached)
  }

  /** The run goes from waiting to running. */
  predicate Rises(n: Nest, s: Step, r: nat)
    requires Can(n, s)
  {
    r in n.runs && n.runs[r].Waiting? && r in Do(n, s).runs && Do(n, s).runs[r].Running?
  }

  /** The run a step enqueues a job for. */
  function JobFor(n: Nest, s: Step): Option<nat>
    requires Can(n, s)
  {
    match s
    case NewRoot(r) => Some(r)
    case Spawn(c, _, detached) => if detached then Some(c) else None
    case WakeOtherwise(r) => Some(r)
    case Commit(a) => Some(n.wakers[a].p)
    case _ => None
  }

  lemma JobForWhom(n: Nest, s: Step, r: nat)
    requires Inv(n) && Can(n, s)
    ensures BornQueued(s, r) || Rises(n, s, r) <==> JobFor(n, s) == Some(r)
  {
    if Target(n, s) != Some(r) { OnlyTargetMoves(n, s, r); }
    else if s.Commit? { assert WakerTrue(n, n.wakers[s.a]); }
  }

  lemma JobsGrow(n: Nest, s: Step)
    requires Can(n, s)
    ensures Do(n, s).jobs == n.jobs + if JobFor(n, s).Some? then [JobFor(n, s).value] else []
  {
  }

  /** A step enqueues a job for a run exactly when the run is born with one or comes out of a wait by it. */
  lemma JobsStep(n: Nest, s: Step, r: nat)
    requires Inv(n) && Can(n, s)
    ensures multiset(Do(n, s).jobs)[r]
            == multiset(n.jobs)[r] + if BornQueued(s, r) || Rises(n, s, r) then 1 else 0
  {
    JobForWhom(n, s, r);
    JobsGrow(n, s);
  }

  ghost function Starts(trace: seq<Nest>, steps: seq<Step>, k: nat, r: nat): nat
    requires Run(trace, steps) && k < |trace|
  {
    if k == 0 then 0
    else Starts(trace, steps, k - 1, r)
         + if BornQueued(steps[k - 1], r) || Rises(trace[k - 1], steps[k - 1], r) then 1 else 0
  }

  /** In every run: a run has had one job for its birth, unless its parent runs it inline, and one for each
      time it came out of a wait; none is lost and none comes twice. */
  lemma {:induction false} JobPerStart(trace: seq<Nest>, steps: seq<Step>, k: nat, r: nat)
    requires Run(trace, steps) && k < |trace|
    ensures multiset(trace[k].jobs)[r] == multiset(trace[0].jobs)[r] + Starts(trace, steps, k, r)
  {
    if k > 0 {
      JobPerStart(trace, steps, k - 1, r);
      RunInv(trace, steps, k - 1);
      JobsStep(trace[k - 1], steps[k - 1], r);
    }
  }

  lemma PauseStep(n: Nest, s: Step, r: nat)
    requires Can(n, s)
    ensures r in Do(n, s).pauses <==> s == QueuePause(r) || (r in n.pauses && s != SettlePause(r))
  {
  }

  ghost predicate PausedSince(steps: seq<Step>, i: nat, k: nat, r: nat) {
    i < k <= |steps| && steps[i] == QueuePause(r) && forall j :: i < j < k ==> steps[j] != SettlePause(r)
  }

  /** A pause is queued exactly since the last command that queued one and until one settles it. */
  lemma {:induction false} PausedExactly(trace: seq<Nest>, steps: seq<Step>, k: nat, r: nat)
    requires Run(trace, steps) && k < |trace| && r !in trace[0].pauses
    ensures r in trace[k].pauses <==> exists i: nat :: PausedSince(steps, i, k, r)
  {
    if k > 0 {
      var m := k - 1;
      PausedExactly(trace, steps, m, r);
      PauseStep(trace[m], steps[m], r);
      if steps[m] == QueuePause(r) { assert PausedSince(steps, m, k, r); }
      if r in trace[m].pauses && steps[m] != SettlePause(r) {
        var i: nat :| PausedSince(steps, i, m, r);
        assert PausedSince(steps, i, k, r);
      }
      if i: nat :| PausedSince(steps, i, k, r) && i < k - 1 { assert PausedSince(steps, i, m, r); }
    }
  }
}
