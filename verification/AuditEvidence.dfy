/** What a comparison against an honest checkpoint proves about the journal. `cut` is the journal when
    the checkpoint was cut, `now` the journal as read later; both are arbitrary. */
module AuditEvidence {
  import opened Base
  import opened Bytes
  import opened AuditChain
  import opened KeyOrder
  import opened AuditPrefix
  import opened AuditReport

  /** The report for an honest checkpoint. The anchors have one sorted order: their own. */
  function Reread(hash: Hash, cut: seq<Row>, now: seq<Row>): Report {
    var cp := CheckpointOf(hash, cut);
    ReportOf(hash, cp, cp.sessions, now)
  }

  lemma HonestOrder(hash: Hash, cut: seq<Row>, order: seq<Anchor>)
    requires Ascending(order, AnchorKey)
    requires multiset(order) == multiset(CheckpointOf(hash, cut).sessions)
    ensures order == CheckpointOf(hash, cut).sessions
  {
    AnchorsStrict(hash, cut);
    StrictUnique(CheckpointOf(hash, cut).sessions, order, AnchorKey);
  }

  /** The rows now at or below the top seq the checkpoint recorded for a session. */
  function NowPrefix(cut: seq<Row>, now: seq<Row>, session: Str): seq<Row> {
    Prefix(now, session, CutTop(cut, session))
  }

  /** Exactly the anchored rows of the session are still there. */
  predicate SessionIntact(cut: seq<Row>, now: seq<Row>, session: Str) {
    multiset(NowPrefix(cut, now, session)) == multiset(SessionRows(cut, session))
  }

  ghost predicate Intact(cut: seq<Row>, now: seq<Row>) {
    forall s :: Mentions(cut, s) ==> SessionIntact(cut, now, s)
  }

  /** Everything hashed for the session anchors when the checkpoint was cut, and when it was compared. */
  function CutInputs(hash: Hash, cut: seq<Row>): set<seq<byte>> {
    set s, x | s in Ids(cut) && x in HeadInputs(hash, SessionRows(cut, s)) :: x
  }

  function ReadInputs(hash: Hash, cut: seq<Row>, now: seq<Row>): set<seq<byte>> {
    set s, x | s in Ids(cut) && x in HeadInputs(hash, NowPrefix(cut, now, s)) :: x
  }

  ghost predicate Forged(hash: Hash, cut: seq<Row>, now: seq<Row>) {
    Collide(hash, CutInputs(hash, cut), ReadInputs(hash, cut, now))
  }

  function SessionVerdict(hash: Hash, cut: seq<Row>, now: seq<Row>, session: Str): seq<Alert> {
    Verdict(hash, AnchorOf(hash, cut, session), now)
  }

  // --- one session ---------------------------------------------------------------------------

  lemma IntactIsSilent(hash: Hash, cut: seq<Row>, now: seq<Row>, session: Str)
    requires KeyedBy(cut) && SessionIntact(cut, now, session)
    ensures SessionVerdict(hash, cut, now, session) == []
  {
    var p, rs := NowPrefix(cut, now, session), SessionRows(cut, session);
    assert |multiset(p)| == |multiset(rs)|;
    TopPermutes(p, rs);
    KeyedByPrefix(cut, session, MAX_SEQ);
    HeadPermutes(hash, rs, p);
  }

  lemma ForgedBy(hash: Hash, cut: seq<Row>, now: seq<Row>, session: Str)
    requires session in Ids(cut)
    requires Collide(hash, HeadInputs(hash, SessionRows(cut, session)), HeadInputs(hash, NowPrefix(cut, now, session)))
    ensures Forged(hash, cut, now)
  {
    var a, b := HeadInputs(hash, SessionRows(cut, session)), HeadInputs(hash, NowPrefix(cut, now, session));
    assert a <= CutInputs(hash, cut);
    assert b <= ReadInputs(hash, cut, now);
    CollideGrows(hash, a, b, CutInputs(hash, cut), ReadInputs(hash, cut, now));
  }

  lemma SilentMeans(hash: Hash, cut: seq<Row>, now: seq<Row>, session: Str)
    requires SessionVerdict(hash, cut, now, session) == []
    ensures |NowPrefix(cut, now, session)| == |SessionRows(cut, session)|
    ensures HeadOf(hash, SessionRows(cut, session)) == HeadOf(hash, NowPrefix(cut, now, session))
  {
  }

  lemma SilentIsIntact(hash: Hash, cut: seq<Row>, now: seq<Row>, session: Str)
    requires session in Ids(cut) && SessionVerdict(hash, cut, now, session) == []
    ensures SessionIntact(cut, now, session) || Forged(hash, cut, now)
  {
    SilentMeans(hash, cut, now, session);
    HeadInjective(hash, SessionRows(cut, session), NowPrefix(cut, now, session));
    if !SessionIntact(cut, now, session) { ForgedBy(hash, cut, now, session); }
  }

  /** A different number of rows is a gap, whatever else changed. */
  lemma CountDiffers(hash: Hash, cut: seq<Row>, now: seq<Row>, session: Str)
    requires |NowPrefix(cut, now, session)| != |SessionRows(cut, session)|
    ensures var p, rs := NowPrefix(cut, now, session), SessionRows(cut, session);
      SessionVerdict(hash, cut, now, session) == [Gap(session, |rs|, Top(rs), |p|, Top(p))]
  {
  }

  lemma StrictlyFewer(a: seq<Row>, b: seq<Row>)
    requires multiset(a) < multiset(b)
    ensures |a| < |b|
  {
    assert multiset(b) == multiset(a) + (multiset(b) - multiset(a));
    assert multiset(b) - multiset(a) != multiset{};
    assert |multiset(a)| == |a| && |multiset(b)| == |b|;
  }

  /** Anchored rows removed and nothing else done at or below the anchored top: one gap, no tamper. */
  lemma DeletionIsAGap(hash: Hash, cut: seq<Row>, now: seq<Row>, session: Str)
    requires multiset(NowPrefix(cut, now, session)) < multiset(SessionRows(cut, session))
    ensures var p, rs := NowPrefix(cut, now, session), SessionRows(cut, session);
      SessionVerdict(hash, cut, now, session) == [Gap(session, |rs|, Top(rs), |p|, Top(p))] && |p| < |rs|
  {
    StrictlyFewer(NowPrefix(cut, now, session), SessionRows(cut, session));
    CountDiffers(hash, cut, now, session);
  }

  /** The same number of rows up to the same top. */
  predicate FiguresMatch(p: seq<Row>, rs: seq<Row>) {
    |p| == |rs| && Top(p) == Top(rs)
  }

  /** Where rows were only removed or only added, the figures tell. */
  lemma OneSidedFigures(p: seq<Row>, rs: seq<Row>)
    requires multiset(p) <= multiset(rs) || multiset(rs) <= multiset(p)
    ensures FiguresMatch(p, rs) <==> multiset(p) == multiset(rs)
  {
    if multiset(p) == multiset(rs) {
      assert |multiset(p)| == |multiset(rs)|;
      TopPermutes(p, rs);
    } else if multiset(p) <= multiset(rs) {
      StrictlyFewer(p, rs);
    } else {
      StrictlyFewer(rs, p);
    }
  }

  lemma VerdictByFigures(hash: Hash, cut: seq<Row>, now: seq<Row>, session: Str)
    ensures var p, rs := NowPrefix(cut, now, session), SessionRows(cut, session);
      var found := SessionVerdict(hash, cut, now, session);
      && (found == [Gap(session, |rs|, Top(rs), |p|, Top(p))] <==> !FiguresMatch(p, rs))
      && (FiguresMatch(p, rs) ==> found == [] || found == [Tamper(session, HeadOf(hash, rs), HeadOf(hash, p))])
  {
  }

  /** What a gap means. Where rows were only removed, or only added, at or below the anchored top, there is one
      exactly when any was; where both happened, exactly when the numbers or the tops differ. Anything else
      that changed is a tamper, or a collision. */
  lemma GapExactly(hash: Hash, cut: seq<Row>, now: seq<Row>, session: Str)
    requires session in Ids(cut)
    ensures var p, rs := NowPrefix(cut, now, session), SessionRows(cut, session);
      var found, gap := SessionVerdict(hash, cut, now, session), [Gap(session, |rs|, Top(rs), |p|, Top(p))];
      && (multiset(p) <= multiset(rs) || multiset(rs) <= multiset(p) ==>
           (found == gap <==> !SessionIntact(cut, now, session)))
      && (found == gap <==> !FiguresMatch(p, rs))
      && (FiguresMatch(p, rs) && !SessionIntact(cut, now, session) ==>
           found == [Tamper(session, HeadOf(hash, rs), HeadOf(hash, p))] || Forged(hash, cut, now))
  {
    var p, rs := NowPrefix(cut, now, session), SessionRows(cut, session);
    VerdictByFigures(hash, cut, now, session);
    if multiset(p) <= multiset(rs) || multiset(rs) <= multiset(p) { OneSidedFigures(p, rs); }
    if SessionVerdict(hash, cut, now, session) == [] { SilentIsIntact(hash, cut, now, session); }
  }

  /** So a lost row can go without a gap: where another has taken its place under another number, the session
      holds as many rows up to the same top, and the report speaks of changed bytes. */
  lemma SwapIsATamper(hash: Hash, cut: seq<Row>, now: seq<Row>, session: Str, lost: Row)
    requires session in Ids(cut) && lost in SessionRows(cut, session)
    requires forall r :: r in NowPrefix(cut, now, session) ==> !SameKey(r, lost)
    requires FiguresMatch(NowPrefix(cut, now, session), SessionRows(cut, session))
    ensures SessionVerdict(hash, cut, now, session)
              == [Tamper(session, HeadOf(hash, SessionRows(cut, session)),
                         HeadOf(hash, NowPrefix(cut, now, session)))]
            || Forged(hash, cut, now)
  {
    assert lost in multiset(SessionRows(cut, session)) && lost !in NowPrefix(cut, now, session);
    GapExactly(hash, cut, now, session);
  }

  /** Row i keeps its (session, seq) and may have any other bytes. */
  predicate SameKeys(a: seq<Row>, b: seq<Row>) {
    |a| == |b| && forall i :: 0 <= i < |a| ==> SameKey(a[i], b[i])
  }

  lemma {:induction false} SameKeysTop(a: seq<Row>, b: seq<Row>)
    requires SameKeys(a, b)
    ensures Top(a) == Top(b)
  {
    if a != [] { SameKeysTop(a[..|a| - 1], b[..|b| - 1]); }
  }

  /** Bytes rewritten in place under unchanged keys: one tamper, no gap, unless the hash collided. */
  lemma RewriteIsATamper(hash: Hash, cut: seq<Row>, now: seq<Row>, session: Str, was: seq<Row>)
    requires session in Ids(cut) && multiset(was) == multiset(SessionRows(cut, session))
    requires SameKeys(was, NowPrefix(cut, now, session)) && !SessionIntact(cut, now, session)
    ensures SessionVerdict(hash, cut, now, session)
              == [Tamper(session, HeadOf(hash, SessionRows(cut, session)),
                         HeadOf(hash, NowPrefix(cut, now, session)))]
            || Forged(hash, cut, now)
  {
    assert |multiset(was)| == |multiset(SessionRows(cut, session))|;
    SameKeysTop(was, NowPrefix(cut, now, session));
    TopPermutes(was, SessionRows(cut, session));
    if SessionVerdict(hash, cut, now, session) == [] {
      SilentIsIntact(hash, cut, now, session);
    }
  }

  // --- the whole report ----------------------------------------------------------------------

  function About(alerts: seq<Alert>, session: Str): seq<Alert> {
    if alerts == [] then []
    else
      var n := |alerts| - 1;
      About(alerts[..n], session) + (if Concerns(alerts[n], session) then [alerts[n]] else [])
  }

  lemma AboutAppend(a: seq<Alert>, b: seq<Alert>, session: Str)
    requires |b| <= 1
    ensures About(a + b, session) == About(a, session) + About(b, session)
  {
    if b == [] {
      assert a + b == a;
    } else {
      assert (a + b)[..|a|] == a && b[..0] == [];
    }
  }

  lemma {:induction false} FlattenEmpty<T>(parts: seq<seq<T>>)
    ensures Flatten(parts) == [] <==> forall i :: 0 <= i < |parts| ==> parts[i] == []
  {
    if parts != [] {
      var n := |parts| - 1;
      FlattenEmpty(parts[..n]);
      assert parts == parts[..n] + [parts[n]];
      assert Flatten(parts) == [] <==> Flatten(parts[..n]) == [] && parts[n] == [];
    }
  }

  /** Part i holds at most one alert, and that one concerns session i. */
  predicate OneEach(parts: seq<seq<Alert>>, ids: seq<Str>) {
    |parts| == |ids| && forall i :: 0 <= i < |parts| ==> Sole(parts[i], ids[i])
  }

  lemma AboutPart(part: seq<Alert>, id: Str, session: Str)
    requires Sole(part, id)
    ensures About(part, session) == if id == session then part else []
  {
    if part != [] { assert part[0] in part && part[..0] == []; }
  }

  lemma AboutSplit(parts: seq<seq<Alert>>, ids: seq<Str>, session: Str)
    requires OneEach(parts, ids) && parts != []
    ensures var n := |parts| - 1;
      About(Flatten(parts), session)
      == About(Flatten(parts[..n]), session) + (if ids[n] == session then parts[n] else [])
  {
    var n := |parts| - 1;
    AboutAppend(Flatten(parts[..n]), parts[n], session);
    AboutPart(parts[n], ids[n], session);
  }

  lemma {:induction false} AboutNone(parts: seq<seq<Alert>>, ids: seq<Str>, session: Str)
    requires OneEach(parts, ids) && session !in ids
    ensures About(Flatten(parts), session) == []
  {
    if parts != [] {
      var n := |parts| - 1;
      AboutNone(parts[..n], ids[..n], session);
      AboutSplit(parts, ids, session);
      assert ids[n] in ids;
    }
  }

  lemma DropLast(parts: seq<seq<Alert>>, ids: seq<Str>)
    requires OneEach(parts, ids) && Distinct(ids, Self) && parts != []
    ensures var n := |ids| - 1;
      OneEach(parts[..n], ids[..n]) && Distinct(ids[..n], Self) && ids[n] !in ids[..n]
  {
    var n := |ids| - 1;
    assert forall k :: 0 <= k < n ==> Self(ids[k]) != Self(ids[n]);
  }

  /** Among parts that name no session twice, the alerts about a session are its own part. */
  lemma {:induction false} AboutFlatten(parts: seq<seq<Alert>>, ids: seq<Str>, i: nat)
    requires OneEach(parts, ids) && Distinct(ids, Self) && i < |ids|
    ensures About(Flatten(parts), ids[i]) == parts[i]
  {
    var n := |parts| - 1;
    var before, known := parts[..n], ids[..n];
    AboutSplit(parts, ids, ids[i]);
    DropLast(parts, ids);
    if i == n {
      AboutNone(before, known, ids[n]);
    } else {
      assert known[i] == ids[i] && ids[i] != ids[n];
      AboutFlatten(before, known, i);
    }
  }

  lemma OneEachKinds(parts: seq<seq<Alert>>, ids: seq<Str>)
    requires OneEach(parts, ids)
    ensures forall a :: a in Flatten(parts) ==> a.Gap? || a.Tamper?
  {
    forall a | a in Flatten(parts) ensures a.Gap? || a.Tamper? {
      FlattenMembers(parts, a);
      var i :| 0 <= i < |parts| && a in parts[i];
      assert Sole(parts[i], ids[i]);
    }
  }

  lemma VerdictsOneEach(hash: Hash, cut: seq<Row>, now: seq<Row>)
    ensures OneEach(VerdictEach(hash, CheckpointOf(hash, cut).sessions, now), Ids(cut))
  {
    var ids := Ids(cut);
    var vs := VerdictEach(hash, CheckpointOf(hash, cut).sessions, now);
    forall i | 0 <= i < |ids| ensures Sole(vs[i], ids[i]) {
      VerdictAt(hash, cut, now, i);
    }
  }

  lemma VerdictAt(hash: Hash, cut: seq<Row>, now: seq<Row>, i: nat)
    requires i < |Ids(cut)|
    ensures VerdictEach(hash, CheckpointOf(hash, cut).sessions, now)[i] == SessionVerdict(hash, cut, now, Ids(cut)[i])
    ensures Sole(SessionVerdict(hash, cut, now, Ids(cut)[i]), Ids(cut)[i])
  {
    assert CheckpointOf(hash, cut).sessions[i] == AnchorOf(hash, cut, Ids(cut)[i]);
  }

  /** Every session's alerts, sorted out: a session of the checkpoint gets its own verdict, at most one
      alert; a session the checkpoint never saw gets none. */
  lemma AlertsPerSession(hash: Hash, cut: seq<Row>, now: seq<Row>, session: Str)
    ensures About(Reread(hash, cut, now).alerts, session)
            == if session in Ids(cut) then SessionVerdict(hash, cut, now, session) else []
    ensures |About(Reread(hash, cut, now).alerts, session)| <= 1
  {
    var ids, vs := Ids(cut), VerdictEach(hash, CheckpointOf(hash, cut).sessions, now);
    VerdictsOneEach(hash, cut, now);
    StrictIsAscending(ids, Self);
    AboutInconsistent(Reread(hash, cut, now).alerts, Flatten(vs), session);
    if session in ids {
      var i :| 0 <= i < |ids| && ids[i] == session;
      AboutFlatten(vs, ids, i);
      VerdictAt(hash, cut, now, i);
    } else {
      AboutNone(vs, ids, session);
    }
  }

  lemma AboutInconsistent(alerts: seq<Alert>, found: seq<Alert>, session: Str)
    requires alerts == found || (found == [] && |alerts| == 1 && alerts[0].Inconsistent?)
    ensures About(alerts, session) == About(found, session)
  {
    if alerts != found { assert alerts[..0] == []; }
  }

  lemma SilentSessions(hash: Hash, cut: seq<Row>, now: seq<Row>)
    ensures Verdicts(hash, CheckpointOf(hash, cut).sessions, now) == []
            <==> forall s :: Mentions(cut, s) ==> SessionVerdict(hash, cut, now, s) == []
  {
    var ids, vs := Ids(cut), VerdictEach(hash, CheckpointOf(hash, cut).sessions, now);
    FlattenEmpty(vs);
    forall i | 0 <= i < |ids| ensures vs[i] == SessionVerdict(hash, cut, now, ids[i]) && ids[i] in ids {
      VerdictAt(hash, cut, now, i);
    }
  }

  lemma CoversCut(hash: Hash, cut: seq<Row>, r: Row)
    ensures Covers(CheckpointOf(hash, cut).sessions, r)
            <==> Mentions(cut, r.session) && r.seqno <= CutTop(cut, r.session)
  {
    var ids, order := Ids(cut), CheckpointOf(hash, cut).sessions;
    if Covers(order, r) {
      var i :| 0 <= i < |order| && InPrefix(r, order[i].session, order[i].maxSeq);
      assert ids[i] in ids && order[i] == AnchorOf(hash, cut, ids[i]);
    }
    if Mentions(cut, r.session) && r.seqno <= CutTop(cut, r.session) {
      assert r.session in ids;
      var i :| 0 <= i < |ids| && ids[i] == r.session;
      assert order[i] == AnchorOf(hash, cut, r.session);
    }
  }

  /** The anchored rows of a later read: those at or below the recorded top of a checkpointed session. */
  lemma RereadCounts(hash: Hash, cut: seq<Row>, now: seq<Row>, r: Row)
    ensures multiset(AnchoredRows(CheckpointOf(hash, cut).sessions, now))[r]
            == if Mentions(cut, r.session) && r.seqno <= CutTop(cut, r.session) then multiset(now)[r] else 0
  {
    AnchorsStrict(hash, cut);
    StrictIsAscending(CheckpointOf(hash, cut).sessions, AnchorKey);
    AnchoredCounts(CheckpointOf(hash, cut).sessions, now, r);
    CoversCut(hash, cut, r);
  }

  lemma IntactRow(cut: seq<Row>, now: seq<Row>, r: Row)
    requires Intact(cut, now)
    ensures multiset(cut)[r]
            == if Mentions(cut, r.session) && r.seqno <= CutTop(cut, r.session) then multiset(now)[r] else 0
  {
    if Mentions(cut, r.session) {
      assert SessionIntact(cut, now, r.session);
      PrefixCounts(now, r.session, CutTop(cut, r.session), r);
      PrefixCounts(cut, r.session, MAX_SEQ, r);
    } else {
      assert r in cut <==> multiset(cut)[r] > 0;
    }
  }

  /** With every prefix intact the anchored rows are the old journal, so the two heads agree. */
  lemma IntactHead(hash: Hash, cut: seq<Row>, now: seq<Row>)
    requires KeyedBy(cut) && Intact(cut, now)
    ensures Reread(hash, cut, now).recomputed == CheckpointOf(hash, cut).head
  {
    var kept := AnchoredRows(CheckpointOf(hash, cut).sessions, now);
    forall r ensures multiset(kept)[r] == multiset(cut)[r] {
      RereadCounts(hash, cut, now, r);
      IntactRow(cut, now, r);
    }
    HeadPermutes(hash, cut, kept);
  }

  lemma AllSilentIsIntact(hash: Hash, cut: seq<Row>, now: seq<Row>)
    requires forall s :: Mentions(cut, s) ==> SessionVerdict(hash, cut, now, s) == []
    ensures Intact(cut, now) || Forged(hash, cut, now)
  {
    if !Forged(hash, cut, now) {
      forall s | Mentions(cut, s) ensures SessionIntact(cut, now, s) {
        SilentIsIntact(hash, cut, now, s);
      }
    }
  }

  /** Tamper evidence: a journal whose anchored prefix is intact passes, and a journal that passes has
      its anchored prefix intact unless a collision of the hash is in hand. */
  lemma TamperEvidence(hash: Hash, cut: seq<Row>, now: seq<Row>)
    requires KeyedBy(cut)
    ensures Intact(cut, now) ==> Reread(hash, cut, now).ok
    ensures Reread(hash, cut, now).ok ==> Intact(cut, now) || Forged(hash, cut, now)
  {
    SilentSessions(hash, cut, now);
    if Intact(cut, now) {
      forall s | Mentions(cut, s) ensures SessionVerdict(hash, cut, now, s) == [] {
        IntactIsSilent(hash, cut, now, s);
      }
      IntactHead(hash, cut, now);
    }
    if Reread(hash, cut, now).ok { AllSilentIsIntact(hash, cut, now); }
  }

  /** The alerts of a report: the verdicts, or the one that names no session where the heads disagree and
      no verdict says why. */
  lemma ReportAlerts(hash: Hash, cut: seq<Row>, now: seq<Row>)
    ensures var rep, cp := Reread(hash, cut, now), CheckpointOf(hash, cut);
      rep.alerts == if rep.recomputed != cp.head && Verdicts(hash, cp.sessions, now) == []
                    then [Inconsistent(cp.head, rep.recomputed)] else Verdicts(hash, cp.sessions, now)
  {
  }

  lemma AllSilentSameHead(hash: Hash, cut: seq<Row>, now: seq<Row>)
    requires KeyedBy(cut) && !Forged(hash, cut, now)
    requires Verdicts(hash, CheckpointOf(hash, cut).sessions, now) == []
    ensures Reread(hash, cut, now).recomputed == CheckpointOf(hash, cut).head
  {
    SilentSessions(hash, cut, now);
    AllSilentIsIntact(hash, cut, now);
    IntactHead(hash, cut, now);
  }

  /** "Internally inconsistent" is never said of an honest checkpoint, short of a collision: every alert
      names a session, and is a gap or a tamper. */
  lemma NeverInconsistent(hash: Hash, cut: seq<Row>, now: seq<Row>)
    requires KeyedBy(cut) && !Forged(hash, cut, now)
    ensures forall a :: a in Reread(hash, cut, now).alerts ==> a.Gap? || a.Tamper?
  {
    ReportAlerts(hash, cut, now);
    VerdictsOneEach(hash, cut, now);
    OneEachKinds(VerdictEach(hash, CheckpointOf(hash, cut).sessions, now), Ids(cut));
    if Verdicts(hash, CheckpointOf(hash, cut).sessions, now) == [] { AllSilentSameHead(hash, cut, now); }
  }

  /** Every row read is accounted for: the anchored count is of the rows at or below the recorded tops, the
      unanchored count of all the others, and neither counts a row twice. */
  lemma RowsAccounted(hash: Hash, cut: seq<Row>, now: seq<Row>)
    ensures var rep, kept := Reread(hash, cut, now), multiset(AnchoredRows(CheckpointOf(hash, cut).sessions, now));
      && kept <= multiset(now) && rep.anchored == |kept| && rep.unanchored == |multiset(now) - kept|
      && rep.anchored + rep.unanchored == |now|
      && forall r :: r in multiset(now) - kept <==>
           r in now && !(Mentions(cut, r.session) && r.seqno <= CutTop(cut, r.session))
  {
    var kept := multiset(AnchoredRows(CheckpointOf(hash, cut).sessions, now));
    forall r
      ensures kept[r] <= multiset(now)[r]
      ensures r in multiset(now) - kept
              <==> r in now && !(Mentions(cut, r.session) && r.seqno <= CutTop(cut, r.session)) {
      RowAccounted(hash, cut, now, kept, r);
    }
    Remaining(kept, multiset(now));
  }

  lemma RowAccounted(hash: Hash, cut: seq<Row>, now: seq<Row>, kept: multiset<Row>, r: Row)
    requires kept == multiset(AnchoredRows(CheckpointOf(hash, cut).sessions, now))
    ensures kept[r] <= multiset(now)[r]
    ensures r in multiset(now) - kept <==> r in now && !(Mentions(cut, r.session) && r.seqno <= CutTop(cut, r.session))
  {
    RereadCounts(hash, cut, now, r);
    assert r in now <==> r in multiset(now);
  }

  lemma Remaining(a: multiset<Row>, b: multiset<Row>)
    requires a <= b
    ensures |a| + |b - a| == |b|
  {
    assert b == a + (b - a);
  }

  /** A journal read again unchanged, in whatever order, passes. */
  lemma UnchangedPasses(hash: Hash, cut: seq<Row>, now: seq<Row>)
    requires KeyedBy(cut) && multiset(now) == multiset(cut)
    ensures Reread(hash, cut, now).ok
  {
    forall s | Mentions(cut, s) ensures SessionIntact(cut, now, s) {
      CutIsWhole(cut, s);
      PrefixPermutes(now, cut, s, CutTop(cut, s));
    }
    TamperEvidence(hash, cut, now);
  }

  /** A checkpoint cut from no rows passes against any journal at all, which is why one is not signed. */
  lemma EmptyCutPasses(hash: Hash, now: seq<Row>)
    ensures Reread(hash, [], now).ok
  {
    TamperEvidence(hash, [], now);
  }

  // --- rows newer than the anchor ------------------------------------------------------------

  /** No anchor of the checkpoint speaks of any of these rows. */
  predicate Unanchored(cp: Checkpoint, extra: seq<Row>) {
    forall r :: r in extra ==> !Covers(cp.sessions, r)
  }

  lemma SamePrefix(a: Anchor, now: seq<Row>, later: seq<Row>, extra: seq<Row>)
    requires multiset(later) == multiset(now) + multiset(extra)
    requires forall r :: r in extra ==> !InPrefix(r, a.session, a.maxSeq)
    ensures multiset(Prefix(later, a.session, a.maxSeq)) == multiset(Prefix(now, a.session, a.maxSeq))
  {
    forall r ensures multiset(Prefix(later, a.session, a.maxSeq))[r] == multiset(Prefix(now, a.session, a.maxSeq))[r] {
      PrefixCounts(later, a.session, a.maxSeq, r);
      PrefixCounts(now, a.session, a.maxSeq, r);
      assert r in extra <==> r in multiset(extra);
    }
  }

  lemma SameFigures(hash: Hash, p: seq<Row>, q: seq<Row>)
    requires KeyedBy(p) && multiset(p) == multiset(q)
    ensures |p| == |q| && Top(p) == Top(q) && HeadOf(hash, p) == HeadOf(hash, q)
  {
    assert |multiset(p)| == |multiset(q)|;
    TopPermutes(p, q);
    HeadPermutes(hash, p, q);
  }

  lemma SameVerdict(hash: Hash, a: Anchor, now: seq<Row>, later: seq<Row>)
    requires KeyedBy(now)
    requires multiset(Prefix(later, a.session, a.maxSeq)) == multiset(Prefix(now, a.session, a.maxSeq))
    ensures Verdict(hash, a, later) == Verdict(hash, a, now)
  {
    KeyedByPrefix(now, a.session, a.maxSeq);
    SameFigures(hash, Prefix(now, a.session, a.maxSeq), Prefix(later, a.session, a.maxSeq));
  }

  lemma {:induction false} FlattenPermutes<T(!new)>(a: seq<seq<T>>, b: seq<seq<T>>)
    requires |a| == |b| && forall i :: 0 <= i < |a| ==> multiset(a[i]) == multiset(b[i])
    ensures multiset(Flatten(a)) == multiset(Flatten(b))
  {
    if a != [] { FlattenPermutes(a[..|a| - 1], b[..|b| - 1]); }
  }

  lemma SameVerdicts(hash: Hash, order: seq<Anchor>, now: seq<Row>, later: seq<Row>, extra: seq<Row>)
    requires KeyedBy(now) && multiset(later) == multiset(now) + multiset(extra)
    requires forall r :: r in extra ==> !Covers(order, r)
    ensures Verdicts(hash, order, later) == Verdicts(hash, order, now)
    ensures multiset(AnchoredRows(order, later)) == multiset(AnchoredRows(order, now))
  {
    var vs, vs' := VerdictEach(hash, order, now), VerdictEach(hash, order, later);
    var ps, ps' := PrefixEach(order, now), PrefixEach(order, later);
    forall i | 0 <= i < |order| ensures vs[i] == vs'[i] && multiset(ps'[i]) == multiset(ps[i]) {
      SamePrefix(order[i], now, later, extra);
      SameVerdict(hash, order[i], now, later);
    }
    assert vs == vs';
    FlattenPermutes(ps', ps);
  }

  lemma CoversPermutes(a: seq<Anchor>, b: seq<Anchor>, r: Row)
    requires multiset(a) == multiset(b)
    ensures Covers(a, r) ==> Covers(b, r)
  {
    if Covers(a, r) {
      var i :| 0 <= i < |a| && InPrefix(r, a[i].session, a[i].maxSeq);
      assert a[i] in multiset(b);
      var j :| 0 <= j < |b| && b[j] == a[i];
      assert InPrefix(r, b[j].session, b[j].maxSeq);
    }
  }

  /** For any checkpoint at all: rows above the anchored tops, or in sessions it never saw, move the
      unanchored count and nothing else in the report, wherever in the read they turn up. */
  lemma NewRowsNeverMatter(hash: Hash, cp: Checkpoint, order: seq<Anchor>,
                           now: seq<Row>, later: seq<Row>, extra: seq<Row>)
    requires KeyedBy(now) && multiset(later) == multiset(now) + multiset(extra)
    requires multiset(order) == multiset(cp.sessions) && Unanchored(cp, extra)
    requires Readable(cp)
    ensures ReportOf(hash, cp, order, later)
            == var was := ReportOf(hash, cp, order, now); was.(unanchored := was.unanchored + |extra|)
  {
    forall r | r in extra ensures !Covers(order, r) {
      CoversPermutes(order, cp.sessions, r);
    }
    SameVerdicts(hash, order, now, later, extra);
    var a, b := AnchoredRows(order, now), AnchoredRows(order, later);
    AnchoredKeyed(order, now);
    HeadPermutes(hash, a, b);
    assert |multiset(a)| == |multiset(b)|;
    assert |multiset(later)| == |multiset(now)| + |multiset(extra)|;
  }

  /** An added row below the anchored top is reported as a gap too: the count no longer matches. */
  lemma InsertionIsAGap(hash: Hash, cut: seq<Row>, now: seq<Row>, session: Str)
    requires multiset(SessionRows(cut, session)) < multiset(NowPrefix(cut, now, session))
    ensures var p, rs := NowPrefix(cut, now, session), SessionRows(cut, session);
      SessionVerdict(hash, cut, now, session) == [Gap(session, |rs|, Top(rs), |p|, Top(p))] && |p| > |rs|
  {
    StrictlyFewer(SessionRows(cut, session), NowPrefix(cut, now, session));
    CountDiffers(hash, cut, now, session);
  }

  /** Cut a checkpoint, read the journal again later, compare. */
  method CutThenVerify(hash: Hash, cut: seq<Row>, now: seq<Row>) returns (rep: Report)
    requires KeyedBy(cut) && KeyedBy(now)
    ensures rep == Reread(hash, cut, now)
    ensures Intact(cut, now) ==> rep.ok
    ensures rep.ok ==> Intact(cut, now) || Forged(hash, cut, now)
  {
    var cp := NewCheckpoint(hash, cut);
    ghost var order;
    rep, order := Compare(hash, cp, now);
    HonestOrder(hash, cut, order);
    TamperEvidence(hash, cut, now);
  }
}
