/** What a checkpoint anchors of a journal: per session, the rows at or below its top seq. */
module AuditPrefix {
  import opened Base
  import opened Bytes
  import opened AuditChain
  import opened KeyOrder

  const MAX_SEQ: Int64 := 0x7fff_ffff_ffff_ffff

  predicate InPrefix(r: Row, session: Str, top: Int64) {
    r.session == session && r.seqno <= top
  }

  /** The rows of one session at or below `top`, in arrival order. */
  function Prefix(rows: seq<Row>, session: Str, top: Int64): seq<Row> {
    if rows == [] then []
    else
      var n := |rows| - 1;
      Prefix(rows[..n], session, top) + (if InPrefix(rows[n], session, top) then [rows[n]] else [])
  }

  function SessionRows(rows: seq<Row>, session: Str): seq<Row> {
    Prefix(rows, session, MAX_SEQ)
  }

  /** The running maximum both loops keep; it starts at zero. */
  function Top(rows: seq<Row>): (top: Int64)
    ensures top >= 0
  {
    if rows == [] then 0
    else
      var n := |rows| - 1;
      if rows[n].seqno > Top(rows[..n]) then rows[n].seqno else Top(rows[..n])
  }

  function CutTop(rows: seq<Row>, session: Str): Int64 {
    Top(SessionRows(rows, session))
  }

  // --- counting ------------------------------------------------------------------------------

  lemma {:induction false} PrefixCounts(rows: seq<Row>, session: Str, top: Int64, r: Row)
    ensures multiset(Prefix(rows, session, top))[r]
            == if InPrefix(r, session, top) then multiset(rows)[r] else 0
  {
    if rows != [] {
      var n := |rows| - 1;
      assert rows == rows[..n] + [rows[n]];
      PrefixCounts(rows[..n], session, top, r);
    }
  }

  lemma PrefixMembers(rows: seq<Row>, session: Str, top: Int64, r: Row)
    ensures r in Prefix(rows, session, top) <==> InPrefix(r, session, top) && r in rows
  {
    PrefixCounts(rows, session, top, r);
    assert r in Prefix(rows, session, top) <==> r in multiset(Prefix(rows, session, top));
    assert r in rows <==> r in multiset(rows);
  }

  lemma PrefixPermutes(a: seq<Row>, b: seq<Row>, session: Str, top: Int64)
    requires multiset(a) == multiset(b)
    ensures multiset(Prefix(a, session, top)) == multiset(Prefix(b, session, top))
  {
    forall r ensures multiset(Prefix(a, session, top))[r] == multiset(Prefix(b, session, top))[r] {
      PrefixCounts(a, session, top, r);
      PrefixCounts(b, session, top, r);
    }
  }

  lemma {:induction false} PrefixOfSession(rows: seq<Row>, session: Str, top: Int64)
    ensures Prefix(SessionRows(rows, session), session, top) == Prefix(rows, session, top)
  {
    if rows != [] {
      var n := |rows| - 1;
      PrefixOfSession(rows[..n], session, top);
      var before := SessionRows(rows[..n], session);
      if rows[n].session == session {
        assert (before + [rows[n]])[..|before|] == before;
      } else {
        assert SessionRows(rows, session) == before;
      }
    }
  }

  lemma {:induction false} TopBounds(rows: seq<Row>)
    ensures forall r :: r in rows ==> r.seqno <= Top(rows)
    ensures Top(rows) == 0 || exists r :: r in rows && r.seqno == Top(rows)
  {
    if rows != [] {
      var n := |rows| - 1;
      TopBounds(rows[..n]);
      assert rows == rows[..n] + [rows[n]];
      assert rows[n] in rows;
    }
  }

  lemma TopPermutes(a: seq<Row>, b: seq<Row>)
    requires multiset(a) == multiset(b)
    ensures Top(a) == Top(b)
  {
    TopBounds(a);
    TopBounds(b);
    forall r ensures r in a <==> r in b {
      assert r in a <==> r in multiset(a);
      assert r in b <==> r in multiset(b);
    }
  }

  /** Every row of a session lies at or below the top recorded for it. */
  lemma CutIsWhole(rows: seq<Row>, session: Str)
    ensures multiset(Prefix(rows, session, CutTop(rows, session))) == multiset(SessionRows(rows, session))
  {
    var top := CutTop(rows, session);
    TopBounds(SessionRows(rows, session));
    forall r ensures multiset(Prefix(rows, session, top))[r] == multiset(SessionRows(rows, session))[r] {
      PrefixCounts(rows, session, top, r);
      PrefixCounts(rows, session, MAX_SEQ, r);
      PrefixMembers(rows, session, MAX_SEQ, r);
      assert r in rows <==> multiset(rows)[r] > 0;
    }
  }

  lemma KeyedByPrefix(rows: seq<Row>, session: Str, top: Int64)
    requires KeyedBy(rows)
    ensures KeyedBy(Prefix(rows, session, top))
  {
    var p := Prefix(rows, session, top);
    forall i, j | 0 <= i < |p| && 0 <= j < |p| && SameKey(p[i], p[j]) ensures p[i] == p[j] {
      PrefixMembers(rows, session, top, p[i]);
      PrefixMembers(rows, session, top, p[j]);
    }
  }

  // --- the sessions of a journal -------------------------------------------------------------

  function Self(s: Str): Str { s }

  ghost predicate Mentions(rows: seq<Row>, session: Str) {
    exists r :: r in rows && r.session == session
  }

  function FirstSeen(rows: seq<Row>): (ids: seq<Str>)
    ensures Distinct(ids, Self)
    ensures forall s :: s in ids <==> Mentions(rows, s)
  {
    if rows == [] then []
    else
      var n := |rows| - 1;
      assert rows == rows[..n] + [rows[n]];
      var ids := FirstSeen(rows[..n]);
      MentionsStep(rows);
      if rows[n].session in ids then ids else ids + [rows[n].session]
  }

  lemma MentionsStep(rows: seq<Row>)
    requires rows != []
    ensures forall s :: Mentions(rows, s) <==> Mentions(rows[..|rows| - 1], s) || s == rows[|rows| - 1].session
  {
    var n := |rows| - 1;
    assert rows == rows[..n] + [rows[n]];
    forall s ensures Mentions(rows, s) <==> Mentions(rows[..n], s) || s == rows[n].session {
      assert rows[n] in rows;
    }
  }

  /** The session ids in byte order, each once. */
  function Ids(rows: seq<Row>): (ids: seq<Str>)
    ensures Strict(ids, Self)
    ensures forall s :: s in ids <==> Mentions(rows, s)
  {
    var ids := Sort(FirstSeen(rows), Self);
    DistinctPermutes(FirstSeen(rows), ids, Self);
    DistinctIsStrict(ids, Self);
    SameMembers(ids, FirstSeen(rows));
    ids
  }

  lemma SameMembers(a: seq<Str>, b: seq<Str>)
    requires multiset(a) == multiset(b)
    ensures forall s :: s in a <==> s in b
  {
    forall s ensures s in a <==> s in b {
      assert s in a <==> s in multiset(a);
      assert s in b <==> s in multiset(b);
    }
  }

  /** Any enumeration of a journal's sessions sorts to the same list. */
  lemma IdsUnique(rows: seq<Row>, ids: seq<Str>)
    requires Ascending(ids, Self) && Distinct(ids, Self)
    requires forall s :: s in ids <==> Mentions(rows, s)
    ensures ids == Ids(rows)
  {
    StrictIsAscending(Ids(rows), Self);
    SameElements(Ids(rows), ids, Self);
    StrictUnique(Ids(rows), ids, Self);
  }

  lemma IdsPermute(a: seq<Row>, b: seq<Row>)
    requires multiset(a) == multiset(b)
    ensures Ids(a) == Ids(b)
  {
    forall s ensures Mentions(a, s) <==> Mentions(b, s) {
      forall r ensures r in a <==> r in b {
        assert r in a <==> r in multiset(a);
        assert r in b <==> r in multiset(b);
      }
    }
    StrictIsAscending(Ids(b), Self);
    IdsUnique(a, Ids(b));
  }

  // --- the grouping loop ---------------------------------------------------------------------

  /** `bySession`: each session's rows, in arrival order. */
  method GroupBySession(rows: seq<Row>) returns (groups: map<Str, seq<Row>>)
    ensures forall s :: s in groups <==> Mentions(rows, s)
    ensures forall s :: s in groups ==> groups[s] == SessionRows(rows, s)
    ensures forall s :: s !in groups ==> SessionRows(rows, s) == []
  {
    groups := map[];
    for i := 0 to |rows|
      invariant forall s :: s in groups <==> Mentions(rows[..i], s)
      invariant forall s :: s in groups ==> groups[s] == SessionRows(rows[..i], s)
      invariant forall s :: s !in groups ==> SessionRows(rows[..i], s) == []
    {
      GroupStep(rows, i);
      var s := rows[i].session;
      groups := groups[s := (if s in groups then groups[s] else []) + [rows[i]]];
    }
    assert rows[..|rows|] == rows;
  }

  lemma GroupStep(rows: seq<Row>, i: nat)
    requires i < |rows|
    ensures forall s :: Mentions(rows[..i + 1], s) <==> Mentions(rows[..i], s) || s == rows[i].session
    ensures forall s :: SessionRows(rows[..i + 1], s)
              == SessionRows(rows[..i], s) + (if s == rows[i].session then [rows[i]] else [])
  {
    var m := rows[..i + 1];
    assert m[..|m| - 1] == rows[..i] && m[|m| - 1] == rows[i];
    MentionsStep(m);
  }
}
