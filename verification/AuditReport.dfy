/** Cutting a checkpoint and comparing a later read of the journal against it
    (packages/audit/checkpoint.go, chain.go `Summarize`, report.go `Compare`). */
module AuditReport {
  import opened Base
  import opened Bytes
  import opened AuditChain
  import opened KeyOrder
  import opened AuditPrefix

  const VERSION := 1
  const ALGORITHM: string := "palai-audit-chain-sha256-v2"

  datatype Anchor = Anchor(session: Str, count: int, maxSeq: Int64, head: seq<byte>)

  datatype Checkpoint = Checkpoint(
    version: int, algorithm: string, head: seq<byte>, count: int, sessions: seq<Anchor>)

  /** The four places an alert is raised. `Inconsistent` is the tamper alert that names no session. */
  datatype Alert =
    | Malformed
    | Gap(session: Str, wantCount: int, wantTop: int, gotCount: int, gotTop: int)
    | Tamper(session: Str, want: seq<byte>, got: seq<byte>)
    | Inconsistent(want: seq<byte>, got: seq<byte>)

  datatype Report = Report(
    anchored: int, unanchored: int, recomputed: seq<byte>, alerts: seq<Alert>, ok: bool)

  function AnchorKey(a: Anchor): Str { a.session }

  // --- cutting -------------------------------------------------------------------------------

  /** The anchor of a session that holds these rows. */
  function AnchorFrom(hash: Hash, session: Str, rs: seq<Row>): Anchor {
    Anchor(session, |rs|, Top(rs), HeadOf(hash, rs))
  }

  function AnchorOf(hash: Hash, rows: seq<Row>, session: Str): Anchor {
    AnchorFrom(hash, session, SessionRows(rows, session))
  }

  function AnchorsOf(hash: Hash, rows: seq<Row>, ids: seq<Str>): (out: seq<Anchor>)
    ensures |out| == |ids|
  {
    seq(|ids|, i requires 0 <= i < |ids| => AnchorOf(hash, rows, ids[i]))
  }

  function CheckpointOf(hash: Hash, rows: seq<Row>): Checkpoint {
    Checkpoint(VERSION, ALGORITHM, HeadOf(hash, rows), |rows|, AnchorsOf(hash, rows, Ids(rows)))
  }

  lemma AnchorPermutes(hash: Hash, a: seq<Row>, b: seq<Row>, session: Str)
    requires multiset(a) == multiset(b) && KeyedBy(a)
    ensures AnchorOf(hash, a, session) == AnchorOf(hash, b, session)
  {
    var ra, rb := SessionRows(a, session), SessionRows(b, session);
    PrefixPermutes(a, b, session, MAX_SEQ);
    KeyedByPrefix(a, session, MAX_SEQ);
    assert |multiset(ra)| == |multiset(rb)|;
    TopPermutes(ra, rb);
    HeadPermutes(hash, ra, rb);
  }

  lemma AnchorsPermute(hash: Hash, a: seq<Row>, b: seq<Row>, ids: seq<Str>)
    requires multiset(a) == multiset(b) && KeyedBy(a)
    ensures AnchorsOf(hash, a, ids) == AnchorsOf(hash, b, ids)
  {
    forall i | 0 <= i < |ids| ensures AnchorsOf(hash, a, ids)[i] == AnchorsOf(hash, b, ids)[i] {
      AnchorPermutes(hash, a, b, ids[i]);
    }
  }

  lemma SameLength(a: seq<Row>, b: seq<Row>)
    requires multiset(a) == multiset(b)
    ensures |a| == |b|
  {
    assert |multiset(a)| == |multiset(b)|;
  }

  /** A checkpoint depends on the journal's rows and not on the order they were read in. */
  lemma CheckpointPermutes(hash: Hash, a: seq<Row>, b: seq<Row>)
    requires multiset(a) == multiset(b) && KeyedBy(a)
    ensures CheckpointOf(hash, a) == CheckpointOf(hash, b)
  {
    IdsPermute(a, b);
    HeadPermutes(hash, a, b);
    SameLength(a, b);
    AnchorsPermute(hash, a, b, Ids(a));
  }

  /** An honest checkpoint lists each session once, in byte order. */
  lemma AnchorsStrict(hash: Hash, rows: seq<Row>)
    ensures Strict(AnchorsOf(hash, rows, Ids(rows)), AnchorKey)
  {
    var ids, out := Ids(rows), AnchorsOf(hash, rows, Ids(rows));
    forall i, j | 0 <= i < j < |out| ensures Less(AnchorKey(out[i]), AnchorKey(out[j])) {
      assert Less(Self(ids[i]), Self(ids[j]));
    }
  }

  method CollectIds(keys: set<Str>) returns (ids: seq<Str>)
    ensures Distinct(ids, Self) && forall s :: s in ids <==> s in keys
  {
    ids := [];
    var left := keys;
    while left != {}
      invariant left <= keys
      invariant Distinct(ids, Self) && forall s :: s in ids <==> s in keys && s !in left
      decreases |left|
    {
      var id :| id in left;
      ids := ids + [id];
      left := left - {id};
    }
  }

  method TopOf(rows: seq<Row>) returns (top: Int64)
    ensures top == Top(rows)
  {
    top := 0;
    for i := 0 to |rows|
      invariant top == Top(rows[..i])
    {
      assert rows[..i + 1][..i] == rows[..i];
      if rows[i].seqno > top { top := rows[i].seqno; }
    }
    assert rows[..|rows|] == rows;
  }

  method SummarizeSession(hash: Hash, rows: seq<Row>, session: Str) returns (a: Anchor)
    requires KeyedBy(rows)
    ensures a == AnchorFrom(hash, session, rows)
  {
    var top := TopOf(rows);
    var head, _ := Head(hash, rows);
    a := Anchor(session, |rows|, top, head);
  }

  /** What the loop below is to find for a session. */
  type Wanted = (Str, Anchor) -> bool

  ghost predicate Wants(hash: Hash, groups: map<Str, seq<Row>>, ids: seq<Str>, wanted: Wanted) {
    forall s :: s in ids ==> s in groups && KeyedBy(groups[s]) && wanted(s, AnchorFrom(hash, s, groups[s]))
  }

  method SummarizeEach(hash: Hash, groups: map<Str, seq<Row>>, ids: seq<Str>, ghost wanted: Wanted)
    returns (sessions: seq<Anchor>)
    requires Wants(hash, groups, ids, wanted)
    ensures |sessions| == |ids| && forall k :: 0 <= k < |ids| ==> wanted(ids[k], sessions[k])
  {
    sessions := [];
    for i := 0 to |ids|
      invariant |sessions| == i && forall k :: 0 <= k < i ==> wanted(ids[k], sessions[k])
    {
      assert ids[i] in ids;
      var a := SummarizeSession(hash, groups[ids[i]], ids[i]);
      sessions := sessions + [a];
    }
  }

  lemma GroupsKeyed(rows: seq<Row>, groups: map<Str, seq<Row>>, ids: seq<Str>)
    requires KeyedBy(rows) && forall s :: s in ids ==> s in groups && groups[s] == SessionRows(rows, s)
    ensures forall s :: s in ids ==> KeyedBy(groups[s])
  {
    forall s | s in ids ensures KeyedBy(groups[s]) { KeyedByPrefix(rows, s, MAX_SEQ); }
  }

  /** The map's keys, collected in any order and sorted. */
  method SortedIds(groups: map<Str, seq<Row>>, ghost rows: seq<Row>) returns (ids: seq<Str>)
    requires forall s :: s in groups <==> Mentions(rows, s)
    ensures ids == Ids(rows)
  {
    var found := CollectIds(groups.Keys);
    ids := Sort(found, Self);
    DistinctPermutes(found, ids, Self);
    SameMembers(ids, found);
    IdsUnique(rows, ids);
  }

  lemma AnchorsAreWanted(hash: Hash, rows: seq<Row>, groups: map<Str, seq<Row>>, ids: seq<Str>, wanted: Wanted)
    requires KeyedBy(rows) && forall s :: s in ids ==> s in groups && groups[s] == SessionRows(rows, s)
    requires forall s, a :: wanted(s, a) <==> a == AnchorOf(hash, rows, s)
    ensures Wants(hash, groups, ids, wanted)
  {
    GroupsKeyed(rows, groups, ids);
  }

  method SummarizeGroups(hash: Hash, groups: map<Str, seq<Row>>, ids: seq<Str>, ghost rows: seq<Row>)
    returns (sessions: seq<Anchor>)
    requires KeyedBy(rows) && forall s :: s in ids ==> s in groups && groups[s] == SessionRows(rows, s)
    ensures sessions == AnchorsOf(hash, rows, ids)
  {
    ghost var wanted: Wanted := (s: Str, a: Anchor) => a == AnchorOf(hash, rows, s);
    AnchorsAreWanted(hash, rows, groups, ids, wanted);
    sessions := SummarizeEach(hash, groups, ids, wanted);
    AnchorsWanted(hash, rows, ids, sessions, wanted);
  }

  method SummarizeSessions(hash: Hash, rows: seq<Row>) returns (sessions: seq<Anchor>)
    requires KeyedBy(rows)
    ensures sessions == AnchorsOf(hash, rows, Ids(rows))
  {
    var groups := GroupBySession(rows);
    var ids := SortedIds(groups, rows);
    sessions := SummarizeGroups(hash, groups, ids, rows);
  }

  lemma AnchorsWanted(hash: Hash, rows: seq<Row>, ids: seq<Str>, sessions: seq<Anchor>, wanted: Wanted)
    requires |sessions| == |ids| && forall k :: 0 <= k < |ids| ==> wanted(ids[k], sessions[k])
    requires forall s, a :: wanted(s, a) ==> a == AnchorOf(hash, rows, s)
    ensures sessions == AnchorsOf(hash, rows, ids)
  {
    forall k | 0 <= k < |ids| ensures sessions[k] == AnchorsOf(hash, rows, ids)[k] {
      assert wanted(ids[k], sessions[k]);
    }
  }

  /** What a checkpoint of these rows holds: its own figures, and one anchor for each session, in byte order, with
      the session's count, top and head. */
  ghost predicate CheckpointTrue(hash: Hash, rows: seq<Row>, cp: Checkpoint) {
    && cp.version == VERSION && cp.algorithm == ALGORITHM && cp.count == |rows| && cp.head == HeadOf(hash, rows)
    && Strict(cp.sessions, AnchorKey)
    && (forall a :: a in cp.sessions ==>
          var rs := SessionRows(rows, a.session);
          Mentions(rows, a.session) && a.count == |rs| && a.maxSeq == Top(rs) && a.head == HeadOf(hash, rs))
    && (forall s :: Mentions(rows, s) ==> exists i :: 0 <= i < |cp.sessions| && cp.sessions[i].session == s)
  }

  lemma CheckpointIsTrue(hash: Hash, rows: seq<Row>)
    ensures CheckpointTrue(hash, rows, CheckpointOf(hash, rows))
  {
    var cp, ids := CheckpointOf(hash, rows), Ids(rows);
    AnchorsStrict(hash, rows);
    forall s | Mentions(rows, s) ensures exists i :: 0 <= i < |cp.sessions| && cp.sessions[i].session == s {
      var i :| 0 <= i < |ids| && ids[i] == s;
      assert cp.sessions[i].session == s;
    }
  }

  method NewCheckpoint(hash: Hash, rows: seq<Row>) returns (cp: Checkpoint)
    requires KeyedBy(rows)
    ensures cp == CheckpointOf(hash, rows) && CheckpointTrue(hash, rows, cp)
  {
    CheckpointIsTrue(hash, rows);
    var sessions := SummarizeSessions(hash, rows);
    var head, _ := Head(hash, rows);
    cp := Checkpoint(VERSION, ALGORITHM, head, |rows|, sessions);
  }

  // --- comparing -----------------------------------------------------------------------------

  /** An alert that names this session. */
  predicate Concerns(alert: Alert, session: Str) {
    (alert.Gap? || alert.Tamper?) && alert.session == session
  }

  predicate Sole(alerts: seq<Alert>, session: Str) {
    |alerts| <= 1 && forall a :: a in alerts ==> Concerns(a, session)
  }

  /** The figures found for a session, against the anchored ones: a gap when the rows do not add up, a
      tamper only when they do and the head differs. */
  function Judge(a: Anchor, count: int, top: int, head: seq<byte>): (alerts: seq<Alert>)
    ensures Sole(alerts, a.session)
  {
    if count != a.count || top != a.maxSeq then [Gap(a.session, a.count, a.maxSeq, count, top)]
    else if head != a.head then [Tamper(a.session, a.head, head)]
    else []
  }

  function JudgeRows(hash: Hash, a: Anchor, p: seq<Row>): seq<Alert> {
    Judge(a, |p|, Top(p), HeadOf(hash, p))
  }

  /** What one anchor says about the rows now held for its session. */
  function Verdict(hash: Hash, a: Anchor, rows: seq<Row>): seq<Alert> {
    JudgeRows(hash, a, Prefix(rows, a.session, a.maxSeq))
  }

  function Flatten<T>(parts: seq<seq<T>>): seq<T> {
    if parts == [] then [] else Flatten(parts[..|parts| - 1]) + parts[|parts| - 1]
  }

  lemma FlattenSnoc<T>(parts: seq<seq<T>>, part: seq<T>)
    ensures Flatten(parts + [part]) == Flatten(parts) + part
  {
    assert (parts + [part])[..|parts|] == parts;
  }

  function VerdictEach(hash: Hash, order: seq<Anchor>, rows: seq<Row>): (vs: seq<seq<Alert>>)
    ensures |vs| == |order|
  {
    seq(|order|, i requires 0 <= i < |order| => Verdict(hash, order[i], rows))
  }

  function PrefixEach(order: seq<Anchor>, rows: seq<Row>): (ps: seq<seq<Row>>)
    ensures |ps| == |order|
  {
    seq(|order|, i requires 0 <= i < |order| => Prefix(rows, order[i].session, order[i].maxSeq))
  }

  function Verdicts(hash: Hash, order: seq<Anchor>, rows: seq<Row>): seq<Alert> {
    Flatten(VerdictEach(hash, order, rows))
  }

  /** The anchored prefixes, session after session. */
  function AnchoredRows(order: seq<Anchor>, rows: seq<Row>): seq<Row> {
    Flatten(PrefixEach(order, rows))
  }

  predicate Readable(cp: Checkpoint) {
    cp.version == VERSION && cp.algorithm == ALGORITHM
  }

  function ReportOf(hash: Hash, cp: Checkpoint, order: seq<Anchor>, rows: seq<Row>): Report {
    if !Readable(cp) then Report(0, 0, [], [Malformed], false)
    else
      var kept := AnchoredRows(order, rows);
      var found := Verdicts(hash, order, rows);
      var head := HeadOf(hash, kept);
      var alerts := if head != cp.head && found == [] then [Inconsistent(cp.head, head)] else found;
      Report(|kept|, |rows| - |kept|, head, alerts, alerts == [])
  }

  method PrefixAndTop(rows: seq<Row>, session: Str, maxSeq: Int64) returns (p: seq<Row>, top: Int64)
    requires forall r :: r in rows ==> r.session == session
    ensures p == Prefix(rows, session, maxSeq) && top == Top(p)
  {
    p, top := [], 0;
    for i := 0 to |rows|
      invariant p == Prefix(rows[..i], session, maxSeq) && top == Top(p)
    {
      assert rows[..i + 1][..i] == rows[..i];
      assert rows[i] in rows;
      if rows[i].seqno <= maxSeq {
        assert (p + [rows[i]])[..|p|] == p;
        p := p + [rows[i]];
        if rows[i].seqno > top { top := rows[i].seqno; }
      }
    }
    assert rows[..|rows|] == rows;
  }

  method JudgeAnchor(hash: Hash, a: Anchor, mine: seq<Row>) returns (p: seq<Row>, found: seq<Alert>)
    requires KeyedBy(mine) && forall r :: r in mine ==> r.session == a.session
    ensures p == Prefix(mine, a.session, a.maxSeq) && found == JudgeRows(hash, a, p)
  {
    var top;
    p, top := PrefixAndTop(mine, a.session, a.maxSeq);
    KeyedByPrefix(mine, a.session, a.maxSeq);
    if |p| != a.count || top != a.maxSeq {
      found := [Gap(a.session, a.count, a.maxSeq, |p|, top)];
    } else {
      var got, _ := Head(hash, p);
      found := if got != a.head then [Tamper(a.session, a.head, got)] else [];
    }
  }

  /** What the loop below is to find for an anchor: its prefix and its alerts. */
  type Finding = (Anchor, seq<Row>, seq<Alert>) -> bool

  function Mine(groups: map<Str, seq<Row>>, session: Str): seq<Row> {
    if session in groups then groups[session] else []
  }

  ghost predicate Finds(hash: Hash, groups: map<Str, seq<Row>>, anchors: seq<Anchor>, right: Finding) {
    forall a :: a in anchors ==>
      var mine := Mine(groups, a.session);
      var p := Prefix(mine, a.session, a.maxSeq);
      KeyedBy(mine) && (forall r :: r in mine ==> r.session == a.session) && right(a, p, JudgeRows(hash, a, p))
  }

  method JudgeNext(hash: Hash, anchors: seq<Anchor>, i: nat, groups: map<Str, seq<Row>>, ghost right: Finding)
    returns (p: seq<Row>, found: seq<Alert>)
    requires Finds(hash, groups, anchors, right) && i < |anchors|
    ensures right(anchors[i], p, found)
  {
    assert anchors[i] in anchors;
    p, found := JudgeAnchor(hash, anchors[i], Mine(groups, anchors[i].session));
  }

  method JudgeEach(hash: Hash, anchors: seq<Anchor>, groups: map<Str, seq<Row>>, ghost right: Finding)
    returns (kept: seq<Row>, alerts: seq<Alert>, ghost ps: seq<seq<Row>>, ghost vs: seq<seq<Alert>>)
    requires Finds(hash, groups, anchors, right)
    ensures |ps| == |vs| == |anchors| && forall i :: 0 <= i < |anchors| ==> right(anchors[i], ps[i], vs[i])
    ensures kept == Flatten(ps) && alerts == Flatten(vs)
  {
    kept, alerts, ps, vs := [], [], [], [];
    for i := 0 to |anchors|
      invariant |ps| == |vs| == i && forall k :: 0 <= k < i ==> right(anchors[k], ps[k], vs[k])
      invariant kept == Flatten(ps) && alerts == Flatten(vs)
    {
      var p, found := JudgeNext(hash, anchors, i, groups, right);
      FlattenSnoc(ps, p);
      FlattenSnoc(vs, found);
      ps, vs := ps + [p], vs + [found];
      kept := kept + p;
      alerts := alerts + found;
    }
  }

  lemma FindsAll(hash: Hash, rows: seq<Row>, groups: map<Str, seq<Row>>, anchors: seq<Anchor>, right: Finding)
    requires KeyedBy(rows) && forall s :: Mine(groups, s) == SessionRows(rows, s)
    requires forall a, p, v :: right(a, p, v) <==> p == Prefix(rows, a.session, a.maxSeq) && v == Verdict(hash, a, rows)
    ensures Finds(hash, groups, anchors, right)
  {
    forall a | a in anchors
      ensures var mine := Mine(groups, a.session);
        var p := Prefix(mine, a.session, a.maxSeq);
        KeyedBy(mine) && (forall r :: r in mine ==> r.session == a.session) && right(a, p, JudgeRows(hash, a, p)) {
      KeyedByPrefix(rows, a.session, MAX_SEQ);
      PrefixOfSession(rows, a.session, a.maxSeq);
      forall r | r in Mine(groups, a.session) ensures r.session == a.session {
        PrefixMembers(rows, a.session, MAX_SEQ, r);
      }
    }
  }

  lemma FoundAll(hash: Hash, rows: seq<Row>, anchors: seq<Anchor>,
                 ps: seq<seq<Row>>, vs: seq<seq<Alert>>, right: Finding)
    requires |ps| == |vs| == |anchors| && forall i :: 0 <= i < |anchors| ==> right(anchors[i], ps[i], vs[i])
    requires forall a, p, v :: right(a, p, v) ==> p == Prefix(rows, a.session, a.maxSeq) && v == Verdict(hash, a, rows)
    ensures ps == PrefixEach(anchors, rows) && vs == VerdictEach(hash, anchors, rows)
  {
    forall i | 0 <= i < |anchors|
      ensures ps[i] == PrefixEach(anchors, rows)[i] && vs[i] == VerdictEach(hash, anchors, rows)[i] {
      assert right(anchors[i], ps[i], vs[i]);
    }
  }

  method JudgeAll(hash: Hash, anchors: seq<Anchor>, rows: seq<Row>) returns (kept: seq<Row>, alerts: seq<Alert>)
    requires KeyedBy(rows)
    ensures kept == AnchoredRows(anchors, rows) && alerts == Verdicts(hash, anchors, rows)
  {
    var groups := GroupBySession(rows);
    ghost var right: Finding := (a: Anchor, p: seq<Row>, v: seq<Alert>) =>
      p == Prefix(rows, a.session, a.maxSeq) && v == Verdict(hash, a, rows);
    FindsAll(hash, rows, groups, anchors, right);
    ghost var ps, vs;
    kept, alerts, ps, vs := JudgeEach(hash, anchors, groups, right);
    FoundAll(hash, rows, anchors, ps, vs, right);
  }

  /** The rows now at or below an anchor's top have its count, its top and its head. */
  predicate Matches(hash: Hash, a: Anchor, rows: seq<Row>) {
    var p := Prefix(rows, a.session, a.maxSeq);
    |p| == a.count && Top(p) == a.maxSeq && HeadOf(hash, p) == a.head
  }

  /** The one alert an anchor that does not match gives. */
  predicate Told(hash: Hash, a: Anchor, rows: seq<Row>, alerts: seq<Alert>) {
    var p := Prefix(rows, a.session, a.maxSeq);
    if |p| == a.count && Top(p) == a.maxSeq then Tamper(a.session, a.head, HeadOf(hash, p)) in alerts
    else Gap(a.session, a.count, a.maxSeq, |p|, Top(p)) in alerts
  }

  lemma VerdictTold(hash: Hash, a: Anchor, rows: seq<Row>)
    ensures Verdict(hash, a, rows) == [] <==> Matches(hash, a, rows)
    ensures !Matches(hash, a, rows) ==> Told(hash, a, rows, Verdict(hash, a, rows))
  {
  }

  lemma VerdictsTold(hash: Hash, order: seq<Anchor>, rows: seq<Row>, a: Anchor)
    requires a in order
    ensures !Matches(hash, a, rows) ==> Told(hash, a, rows, Verdicts(hash, order, rows))
  {
    var i :| 0 <= i < |order| && order[i] == a;
    VerdictTold(hash, a, rows);
    var vs := VerdictEach(hash, order, rows);
    forall x | x in vs[i] ensures x in Flatten(vs) { FlattenMembers(vs, x); }
  }

  lemma VerdictsSilent(hash: Hash, order: seq<Anchor>, rows: seq<Row>)
    requires forall a :: a in order ==> Matches(hash, a, rows)
    ensures Verdicts(hash, order, rows) == []
  {
    var vs := VerdictEach(hash, order, rows);
    if Flatten(vs) != [] {
      var x := Flatten(vs)[0];
      FlattenMembers(vs, x);
      var i :| 0 <= i < |vs| && x in vs[i];
      VerdictTold(hash, order[i], rows);
    }
  }

  /** What a report says of any checkpoint, honest or not. */
  ghost predicate ReportTrue(hash: Hash, cp: Checkpoint, rows: seq<Row>, rep: Report) {
    && (rep.ok <==> rep.alerts == [])
    && (cp.version != VERSION || cp.algorithm != ALGORITHM ==> rep.alerts == [Malformed] && !rep.ok)
    && (rep.ok <==> cp.version == VERSION && cp.algorithm == ALGORITHM && rep.recomputed == cp.head
                    && forall a :: a in cp.sessions ==> Matches(hash, a, rows))
    && (cp.version == VERSION && cp.algorithm == ALGORITHM ==>
          forall a :: a in cp.sessions && !Matches(hash, a, rows) ==> Told(hash, a, rows, rep.alerts))
  }

  lemma ReportIsTrue(hash: Hash, cp: Checkpoint, order: seq<Anchor>, rows: seq<Row>)
    requires multiset(order) == multiset(cp.sessions)
    ensures ReportTrue(hash, cp, rows, ReportOf(hash, cp, order, rows))
  {
    forall a ensures a in order <==> a in cp.sessions {
      assert a in order <==> a in multiset(order);
      assert a in cp.sessions <==> a in multiset(cp.sessions);
    }
    forall a | a in order ensures !Matches(hash, a, rows) ==> Told(hash, a, rows, Verdicts(hash, order, rows)) {
      VerdictsTold(hash, order, rows, a);
    }
    if forall a :: a in order ==> Matches(hash, a, rows) {
      VerdictsSilent(hash, order, rows);
    } else {
      var a :| a in order && !Matches(hash, a, rows);
      assert Told(hash, a, rows, Verdicts(hash, order, rows));
    }
  }

  /** The anchors are judged in some order sorted by session; `order` is the one chosen. */
  method Compare(hash: Hash, cp: Checkpoint, rows: seq<Row>) returns (rep: Report, ghost order: seq<Anchor>)
    requires KeyedBy(rows)
    ensures Ascending(order, AnchorKey) && multiset(order) == multiset(cp.sessions)
    ensures rep == ReportOf(hash, cp, order, rows) && ReportTrue(hash, cp, rows, rep)
    ensures rep.ok ==> cp.version == VERSION && cp.algorithm == ALGORITHM && rep.recomputed == cp.head
    ensures cp.version != VERSION || cp.algorithm != ALGORITHM ==> rep.alerts == [Malformed] && !rep.ok
    ensures rep.ok <==> rep.alerts == []
  {
    var anchors := Sort(cp.sessions, AnchorKey);
    order := anchors;
    ReportIsTrue(hash, cp, order, rows);
    if cp.version != VERSION || cp.algorithm != ALGORITHM {
      return Report(0, 0, [], [Malformed], false), order;
    }
    var kept, alerts := JudgeAll(hash, anchors, rows);
    AnchoredKeyed(anchors, rows);
    var head, _ := Head(hash, kept);
    if head != cp.head && alerts == [] {
      alerts := [Inconsistent(cp.head, head)];
    }
    rep := Report(|kept|, |rows| - |kept|, head, alerts, alerts == []);
  }

  // --- what the anchored rows are ------------------------------------------------------------

  lemma {:induction false} FlattenMembers<T>(parts: seq<seq<T>>, x: T)
    ensures x in Flatten(parts) <==> exists i :: 0 <= i < |parts| && x in parts[i]
  {
    if parts != [] {
      var n := |parts| - 1;
      assert parts == parts[..n] + [parts[n]];
      FlattenMembers(parts[..n], x);
    }
  }

  lemma AnchoredMembers(order: seq<Anchor>, rows: seq<Row>, r: Row)
    requires r in AnchoredRows(order, rows)
    ensures r in rows
  {
    FlattenMembers(PrefixEach(order, rows), r);
    var i :| 0 <= i < |order| && r in PrefixEach(order, rows)[i];
    PrefixMembers(rows, order[i].session, order[i].maxSeq, r);
  }

  lemma AnchoredKeyed(order: seq<Anchor>, rows: seq<Row>)
    requires KeyedBy(rows)
    ensures KeyedBy(AnchoredRows(order, rows))
  {
    var kept := AnchoredRows(order, rows);
    forall i, j | 0 <= i < |kept| && 0 <= j < |kept| && SameKey(kept[i], kept[j]) ensures kept[i] == kept[j] {
      AnchoredMembers(order, rows, kept[i]);
      AnchoredMembers(order, rows, kept[j]);
    }
  }

  predicate Covers(order: seq<Anchor>, r: Row) {
    exists i :: 0 <= i < |order| && InPrefix(r, order[i].session, order[i].maxSeq)
  }

  lemma CoversStep(order: seq<Anchor>, r: Row)
    requires order != [] && Distinct(order, AnchorKey)
    ensures var n := |order| - 1;
      if InPrefix(r, order[n].session, order[n].maxSeq) then Covers(order, r) && !Covers(order[..n], r)
      else Covers(order, r) == Covers(order[..n], r)
  {
    var n := |order| - 1;
    assert forall i :: 0 <= i < n ==> AnchorKey(order[i]) != AnchorKey(order[n]);
    assert order == order[..n] + [order[n]];
  }

  lemma AnchoredStep(order: seq<Anchor>, rows: seq<Row>)
    requires order != []
    ensures var n := |order| - 1;
      AnchoredRows(order, rows) == AnchoredRows(order[..n], rows) + Prefix(rows, order[n].session, order[n].maxSeq)
  {
    var n := |order| - 1;
    assert PrefixEach(order, rows)[..n] == PrefixEach(order[..n], rows);
  }

  /** When no session is listed twice, the anchored rows are exactly the covered rows of the journal,
      each as often as the journal holds it. */
  lemma {:induction false} AnchoredCounts(order: seq<Anchor>, rows: seq<Row>, r: Row)
    requires Distinct(order, AnchorKey)
    ensures multiset(AnchoredRows(order, rows))[r] == if Covers(order, r) then multiset(rows)[r] else 0
  {
    if order != [] {
      var n := |order| - 1;
      AnchoredCounts(order[..n], rows, r);
      AnchoredStep(order, rows);
      PrefixCounts(rows, order[n].session, order[n].maxSeq, r);
      CoversStep(order, r);
    }
  }
}
