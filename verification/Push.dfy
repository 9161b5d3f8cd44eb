/** PushBranch against a remote that others push to (adapters/repositories/publish.go:109-182). Commits are
    numbers and `ff(a, b)` says b is a or descends from it; the remote takes a push only where the ref is
    absent or fast-forwards. Any number of pushes by others falls between two statements of the call. */
module Push {
  import opened Base

  type History = (nat, nat) -> bool

  ghost predicate Descent(ff: History) {
    (forall a :: ff(a, a)) && (forall a, b, c :: ff(a, b) && ff(b, c) ==> ff(a, c))
  }

  predicate Moves(ff: History, ref: Option<nat>, to: nat) {
    ref.None? || ff(ref.value, to)
  }

  datatype Result =
    | Receipt(sha: nat, reconciled: bool)
    | Diverged(after: nat)
    | Failed

  datatype Pc =
    | Begin
    | Minted(handle: nat)
    | Helped(handle: nat)
    | Behind(handle: nat)
    | Refused(handle: nat)
    | Accepted(handle: nat)
    | Returning(result: Result)
    | Done(result: Result)

  /** How a push command can end: taken, taken with the answer lost, not taken, or never arrived. */
  datatype Ending = Taken | AnswerLost | NotTaken | NeverSent

  /** How writing the credential file can end: written, not wanted because there is no token, not opened, or
      opened and then not written or not closed. */
  datatype HelperEnd = FileWritten | NoToken | NotOpened | NotFinished

  /** live is the vault's handles, helpers the credential files on disk, by handle; recorded says that the
      vault has the path of this call's file. History: mine, the handle this call minted; moved, whether it
      changed the ref, and from what; lost, whether a push of its own was taken unanswered; pushes, how many
      push commands it ran. */
  datatype World = World(
    ref: Option<nat>, live: set<nat>, helpers: set<nat>, recorded: bool, pc: Pc,
    mine: Option<nat>, moved: bool, from: Option<nat>, lost: bool, pushes: nat)

  datatype Step =
    | Others(to: nat)
    | OthersMint(h: nat)
    | OthersRevoke(h: nat)
    | Mint(h: nat)
    | WriteHelper(end: HelperEnd)
    | Ask
    | RunPush(ending: Ending)
    | AskAgain
    | Confirm
    | Fail
    | Revoke(removable: bool)

  predicate Can(w: World, head: nat, s: Step, ff: History) {
    match s
    case Others(to) => Moves(ff, w.ref, to)
    case OthersMint(h) => h !in w.live && w.mine != Some(h)
    case OthersRevoke(h) => w.mine != Some(h)
    case Mint(h) => w.pc.Begin? && h !in w.live && h !in w.helpers
    case WriteHelper(_) => w.pc.Minted?
    case Ask => w.pc.Helped?
    case RunPush(ending) =>
      && w.pc.Behind?
      && (ending.Taken? || ending.AnswerLost? ==> Moves(ff, w.ref, head))
      && (ending.NotTaken? ==> !Moves(ff, w.ref, head))
    case AskAgain => w.pc.Refused?
    case Confirm => w.pc.Accepted?
    case Fail => !w.pc.Returning? && !w.pc.Done?
    case Revoke(_) => w.pc.Returning? && w.mine.Some?
  }

  /** Once there is a handle, every return runs the deferred revoke. */
  function Returned(w: World, result: Result): World {
    w.(pc := if w.mine.Some? then Returning(result) else Done(result))
  }

  function HelpedBy(w: World, end: HelperEnd): World
    requires w.pc.Minted?
  {
    var h := w.pc.handle;
    match end
    case FileWritten => w.(helpers := w.helpers + {h}, recorded := true, pc := Helped(h))
    case NoToken => w.(pc := Helped(h))
    case NotOpened => Returned(w, Failed)
    case NotFinished => Returned(w.(helpers := w.helpers + {h}), Failed)
  }

  /** The secret goes first, then the file the vault has on record, if that can be removed. The call drops
      the error. */
  function RevokedBy(w: World, removable: bool): World
    requires w.pc.Returning? && w.mine.Some?
  {
    var h := w.mine.value;
    w.(live := w.live - {h}, helpers := if w.recorded && removable then w.helpers - {h} else w.helpers,
       pc := Done(w.pc.result))
  }

  function Pushed(w: World, head: nat, ending: Ending): World
    requires w.pc.Behind?
  {
    var sent := w.(pushes := w.pushes + 1);
    if ending.Taken? || ending.AnswerLost? then
      sent.(ref := Some(head), moved := w.moved || w.ref != Some(head),
            from := if w.ref != Some(head) then w.ref else w.from,
            lost := ending.AnswerLost? && w.ref != Some(head),
            pc := if ending.Taken? then Accepted(w.pc.handle) else Refused(w.pc.handle))
    else sent.(pc := Refused(w.pc.handle))
  }

  /** Fail is an error from minting, from a refused handle, from a query or from the second query: the call
      returns the error. */
  function Do(w: World, head: nat, s: Step, ff: History): World
    requires Can(w, head, s, ff)
  {
    match s
    case Others(to) => w.(ref := Some(to))
    case OthersMint(h) => w.(live := w.live + {h})
    case OthersRevoke(h) => w.(live := w.live - {h}, helpers := w.helpers - {h})
    case Mint(h) => w.(live := w.live + {h}, pc := Minted(h), mine := Some(h))
    case WriteHelper(end) => HelpedBy(w, end)
    case Ask => if w.ref == Some(head) then Returned(w, Receipt(head, true)) else w.(pc := Behind(w.pc.handle))
    case RunPush(ending) => Pushed(w, head, ending)
    case AskAgain =>
      (match w.ref
       case None => Returned(w, Failed)
       case Some(after) => if after == head then Returned(w, Receipt(after, true)) else Returned(w, Diverged(after)))
    case Confirm =>
      (match w.ref
       case None => Returned(w, Failed)
       case Some(sha) => Returned(w, Receipt(sha, false)))
    case Fail => Returned(w, Failed)
    case Revoke(removable) => RevokedBy(w, removable)
  }

  // --- the invariant -------------------------------------------------------------------------

  ghost predicate MoveTrue(w: World, head: nat, ff: History) {
    && (w.moved ==> Moves(ff, w.from, head) && w.ref.Some? && ff(head, w.ref.value) && w.from != Some(head))
    && (w.lost ==> w.moved)
    && (w.moved ==> w.pushes == 1) && w.pushes <= 1
  }

  ghost predicate PcTrue(w: World, head: nat, ff: History) {
    match w.pc
    case Begin => w.mine.None? && !w.moved && w.pushes == 0
    case Minted(h) => w.mine == Some(h) && !w.moved && w.pushes == 0
    case Helped(h) => w.mine == Some(h) && !w.moved && w.pushes == 0
    case Behind(h) => w.mine == Some(h) && !w.moved && w.pushes == 0
    case Refused(h) => w.mine == Some(h) && (w.moved <==> w.lost) && w.pushes == 1
    case Accepted(h) => w.mine == Some(h) && w.ref.Some? && ff(head, w.ref.value) && w.pushes == 1
    case Returning(result) => w.mine.Some? && ResultTrue(w, head, ff, result)
    case Done(result) => (w.mine.Some? ==> w.mine.value !in w.live) && ResultTrue(w, head, ff, result)
  }

  ghost predicate ResultTrue(w: World, head: nat, ff: History, result: Result) {
    match result
    case Receipt(sha, reconciled) => ff(head, sha) && (reconciled ==> sha == head)
    case Diverged(after) => after != head && (w.moved <==> w.lost) && (w.moved ==> ff(head, after))
    case Failed => true
  }

  ghost predicate Inv(w: World, head: nat, ff: History) {
    MoveTrue(w, head, ff) && PcTrue(w, head, ff) && HandleTrue(w)
  }

  /** The handle is in the vault from its mint to the revoke that every return runs. */
  predicate HandleTrue(w: World) {
    w.mine.Some? ==> (w.mine.value in w.live <==> !w.pc.Done?)
  }

  lemma StepInv(w: World, head: nat, s: Step, ff: History)
    requires Descent(ff) && Inv(w, head, ff) && Can(w, head, s, ff)
    ensures Inv(Do(w, head, s, ff), head, ff)
  {
    if s.Others? && w.ref.Some? { assert ff(head, w.ref.value) && ff(w.ref.value, s.to) ==> ff(head, s.to); }
  }

  // --- every interleaving --------------------------------------------------------------------

  predicate Start(w: World) {
    w.pc.Begin? && w.mine.None? && !w.recorded && !w.moved && !w.lost && w.pushes == 0
  }

  ghost predicate Run(trace: seq<World>, steps: seq<Step>, head: nat, ff: History) {
    |trace| == |steps| + 1 && Start(trace[0])
    && forall k :: 0 <= k < |steps| ==>
         Can(trace[k], head, steps[k], ff) && trace[k + 1] == Do(trace[k], head, steps[k], ff)
  }

  lemma {:induction false} RunInv(trace: seq<World>, steps: seq<Step>, head: nat, ff: History, k: nat)
    requires Descent(ff) && Run(trace, steps, head, ff) && k < |trace|
    ensures Inv(trace[k], head, ff)
  {
    if k > 0 {
      RunInv(trace, steps, head, ff, k - 1);
      StepInv(trace[k - 1], head, steps[k - 1], ff);
    }
  }

  /** This call changes the ref at most once, by one push, to exactly the head, and only from nothing or
      from a commit the head descends from. */
  lemma OnlyFastForwardToHead(trace: seq<World>, steps: seq<Step>, head: nat, ff: History, k: nat)
    requires Descent(ff) && Run(trace, steps, head, ff) && k < |steps| && !steps[k].Others?
    ensures trace[k + 1].ref != trace[k].ref ==>
              && trace[k + 1].ref == Some(head) && Moves(ff, trace[k].ref, head)
              && !trace[k].moved && trace[k + 1].moved && trace[k].pushes == 0 && trace[k + 1].pushes == 1
  {
    RunInv(trace, steps, head, ff, k);
  }

  /** What each way of returning means, in every interleaving. A receipt names the head or a descendant of
      it, and a reconciled one the head itself. A divergence means this call changed nothing - unless its
      push was taken and the answer lost, and then what it reports descends from the head. On every return
      the minted handle is gone. */
  lemma ReturnsTrue(trace: seq<World>, steps: seq<Step>, head: nat, ff: History, k: nat)
    requires Descent(ff) && Run(trace, steps, head, ff) && k < |trace| && trace[k].pc.Done?
    ensures var w, result := trace[k], trace[k].pc.result;
      && (result.Receipt? ==> ff(head, result.sha) && (result.reconciled ==> result.sha == head))
      && (result.Diverged? ==> result.after != head && (w.moved <==> w.lost) && (w.moved ==> ff(head, result.after)))
      && (w.mine.Some? ==> w.mine.value !in w.live)
  {
    RunInv(trace, steps, head, ff, k);
  }

  /** In every interleaving the call's own handle is in the vault exactly while the call is under way. */
  lemma HandleLives(trace: seq<World>, steps: seq<Step>, head: nat, ff: History, k: nat)
    requires Descent(ff) && Run(trace, steps, head, ff) && k < |trace| && trace[k].mine.Some?
    ensures trace[k].mine.value in trace[k].live <==> !trace[k].pc.Done?
  {
    RunInv(trace, steps, head, ff, k);
  }

  /** The result a step returns with, if it is the one that decides it. */
  function Deciding(w: World, head: nat, s: Step, ff: History): Option<Result>
    requires Can(w, head, s, ff)
  {
    if w.pc.Returning? || w.pc.Done? then None
    else
      match Do(w, head, s, ff).pc
      case Returning(result) => Some(result)
      case Done(result) => Some(result)
      case _ => None
  }

  /** Which answer is given, and on what. A reconciled receipt is for the head read on the remote before or
      after the push, a plain one for whatever is read after a push that was taken, a divergence for another
      commit read after one that was not; and a failure only where something failed or no ref was found. */
  lemma AnswerOn(w: World, head: nat, s: Step, ff: History)
    requires Can(w, head, s, ff)
    ensures forall sha: nat :: Deciding(w, head, s, ff) == Some(Receipt(sha, true))
                          <==> (s.Ask? || s.AskAgain?) && sha == head && w.ref == Some(head)
    ensures forall sha: nat :: Deciding(w, head, s, ff) == Some(Receipt(sha, false))
                               <==> s.Confirm? && w.ref == Some(sha)
    ensures forall after: nat :: Deciding(w, head, s, ff) == Some(Diverged(after))
                            <==> s.AskAgain? && w.ref == Some(after) && after != head
    ensures Deciding(w, head, s, ff) == Some(Failed)
            <==> s.Fail? || s == WriteHelper(NotOpened) || s == WriteHelper(NotFinished)
                 || ((s.AskAgain? || s.Confirm?) && w.ref.None?)
  {
  }

  /** A push that was taken and whose ref is then read returns a receipt for what is read: the head or a
      descendant of it, in every interleaving. */
  lemma TakenIsReceipt(trace: seq<World>, steps: seq<Step>, head: nat, ff: History, k: nat)
    requires Descent(ff) && Run(trace, steps, head, ff) && k < |steps| && steps[k].Confirm?
    ensures trace[k].ref.Some? && ff(head, trace[k].ref.value)
    ensures trace[k + 1].pc == Returning(Receipt(trace[k].ref.value, false))
  {
    RunInv(trace, steps, head, ff, k);
  }

  // --- the credential file -------------------------------------------------------------------

  /** What the file's presence says at each point, given whether its writing was left unfinished and whether
      its removal failed. */
  predicate FileTrue(w: World, torn: bool, stuck: bool) {
    match w.pc
    case Begin => w.mine.None? && !w.recorded && !torn && !stuck
    case Minted(h) => w.mine == Some(h) && !w.recorded && h !in w.helpers && !torn && !stuck
    case Helped(h) => w.mine == Some(h) && (h in w.helpers <==> w.recorded) && !torn && !stuck
    case Behind(h) => w.mine == Some(h) && (h in w.helpers <==> w.recorded) && !torn && !stuck
    case Refused(h) => w.mine == Some(h) && (h in w.helpers <==> w.recorded) && !torn && !stuck
    case Accepted(h) => w.mine == Some(h) && (h in w.helpers <==> w.recorded) && !torn && !stuck
    case Returning(_) => w.mine.Some? && (w.mine.value in w.helpers <==> w.recorded || torn) && !stuck
                         && !(w.recorded && torn)
    case Done(_) => w.mine.Some? ==> (w.mine.value in w.helpers <==> torn || stuck)
  }

  predicate Tears(s: Step) {
    s == WriteHelper(NotFinished)
  }

  predicate Sticks(w: World, s: Step) {
    s == Revoke(false) && w.recorded
  }

  lemma StepFile(w: World, head: nat, s: Step, ff: History, torn: bool, stuck: bool)
    requires Can(w, head, s, ff) && FileTrue(w, torn, stuck)
    ensures FileTrue(Do(w, head, s, ff), torn || Tears(s), stuck || Sticks(w, s))
  {
  }

  predicate Torn(steps: seq<Step>, k: nat) {
    exists j :: 0 <= j < k && j < |steps| && Tears(steps[j])
  }

  predicate Stuck(trace: seq<World>, steps: seq<Step>, k: nat) {
    exists j :: 0 <= j < k && j < |steps| && j < |trace| && Sticks(trace[j], steps[j])
  }

  lemma {:induction false} RunFile(trace: seq<World>, steps: seq<Step>, head: nat, ff: History, k: nat)
    requires Run(trace, steps, head, ff) && k < |trace|
    ensures FileTrue(trace[k], Torn(steps, k), Stuck(trace, steps, k))
  {
    if k > 0 {
      RunFile(trace, steps, head, ff, k - 1);
      StepFile(trace[k - 1], head, steps[k - 1], ff, Torn(steps, k - 1), Stuck(trace, steps, k - 1));
    }
  }

  /** On every return the file is gone as well, exactly unless its writing failed after it was opened, when no
      path is recorded and no revoke looks for it, or the revoke could not remove the recorded file, whose
      error the call drops. */
  lemma FileGoneExactly(trace: seq<World>, steps: seq<Step>, head: nat, ff: History, k: nat)
    requires Run(trace, steps, head, ff) && k < |trace| && trace[k].pc.Done? && trace[k].mine.Some?
    ensures trace[k].mine.value !in trace[k].helpers <==> !Torn(steps, k) && !Stuck(trace, steps, k)
  {
    RunFile(trace, steps, head, ff, k);
  }

  /** Both happen: a write torn after the open, whatever the revoke can do; and a file that cannot be removed. */
  lemma FileOutlives(w: World, head: nat, h: nat, removable: bool, ff: History)
    requires w.pc == Minted(h) && w.mine == Some(h) && !w.recorded && w.ref == Some(head)
    ensures var torn := Do(Do(w, head, WriteHelper(NotFinished), ff), head, Revoke(removable), ff);
      torn.pc == Done(Failed) && h !in torn.live && h in torn.helpers
    ensures var helped := Do(w, head, WriteHelper(FileWritten), ff);
      var stuck := Do(Do(helped, head, Ask, ff), head, Revoke(false), ff);
      stuck.pc == Done(Receipt(head, true)) && h !in stuck.live && h in stuck.helpers
  {
  }

  // --- what a divergence proves --------------------------------------------------------------

  /** So a divergence onto a commit that does not descend from the head is proof that nothing was moved. */
  lemma ForeignDivergenceMovedNothing(trace: seq<World>, steps: seq<Step>, head: nat, ff: History, k: nat)
    requires Descent(ff) && Run(trace, steps, head, ff) && k < |trace| && trace[k].pc.Done?
    requires trace[k].pc.result.Diverged? && !ff(head, trace[k].pc.result.after)
    ensures !trace[k].moved
  {
    RunInv(trace, steps, head, ff, k);
  }

  /** Divergence alone is not: the push lands, its answer is lost, somebody builds on it, and the call
      reports that the remote diverged from a commit it published itself. */
  lemma LostAnswerDiverges(w: World, head: nat, later: nat, removable: bool, ff: History)
    requires w.pc.Behind? && w.mine == Some(w.pc.handle) && w.ref != Some(head) && Moves(ff, w.ref, head)
    requires ff(head, later) && later != head
    ensures var w1 := Do(w, head, RunPush(AnswerLost), ff);
      var w2 := Do(w1, head, Others(later), ff);
      var w3 := Do(Do(w2, head, AskAgain, ff), head, Revoke(removable), ff);
      w3.pc == Done(Diverged(later)) && w3.moved
  {
  }

  /** A retry of a push that landed, left alone, is reconciled: it runs no push and moves nothing. */
  lemma RetryReconciles(w: World, head: nat, h: nat, removable: bool, ff: History)
    requires Start(w) && w.ref == Some(head) && h !in w.live && h !in w.helpers
    ensures var w1 := Do(w, head, Mint(h), ff);
      var w2 := Do(w1, head, WriteHelper(FileWritten), ff);
      var w3 := Do(Do(w2, head, Ask, ff), head, Revoke(removable), ff);
      && w3.pc == Done(Receipt(head, true)) && w3.pushes == 0 && w3.ref == w.ref && w3.live == w.live
      && w3.helpers == if removable then w.helpers else w.helpers + {h}
  {
  }
}
