/** The rolling hash over the session journal (packages/audit/chain.go). SHA-256 is a parameter: any
    function from byte strings to 32 bytes. Nothing here assumes it injective; a conclusion that
    would need that says instead which two hashed inputs collide. */
module AuditChain {
  import opened Base
  import opened Bytes

  type Digest = d: seq<byte> | |d| == 32 witness seq(32, _ => 0)
  type Hash = seq<byte> -> Digest

  /** One `events` row. A NULL response_id is None, distinct from the empty string. */
  datatype Row = Row(
    id: Str,
    project: Str,
    session: Str,
    response: Option<Str>,
    seqno: Int64,
    journal: Int64,
    kind: Str,
    payload: Str,
    created: Str)

  // --- the row digest ------------------------------------------------------------------------

  function EncodeTail(r: Row): seq<byte> {
    Field(Decimal(r.seqno))
    + (Field(Decimal(r.journal)) + (Field(r.kind) + (Field(r.payload) + Field(r.created))))
  }

  function EncodeResponse(o: Option<Str>, rest: seq<byte>): seq<byte> {
    match o
    case None => [0] + rest
    case Some(v) => [1] + (Field(v) + rest)
  }

  function Encode(r: Row): seq<byte> {
    Field(r.id) + (Field(r.project) + (Field(r.session) + EncodeResponse(r.response, EncodeTail(r))))
  }

  lemma EncodeTailInjective(a: Row, b: Row)
    requires EncodeTail(a) == EncodeTail(b)
    ensures a.seqno == b.seqno && a.journal == b.journal
    ensures a.kind == b.kind && a.payload == b.payload && a.created == b.created
  {
    var a2, b2 := Field(a.payload) + Field(a.created), Field(b.payload) + Field(b.created);
    var a1, b1 := Field(a.kind) + a2, Field(b.kind) + b2;
    FieldPrefixFree(Decimal(a.seqno), Decimal(b.seqno),
                    Field(Decimal(a.journal)) + a1, Field(Decimal(b.journal)) + b1);
    FormatIntInjective(a.seqno, b.seqno);
    FieldPrefixFree(Decimal(a.journal), Decimal(b.journal), a1, b1);
    FormatIntInjective(a.journal, b.journal);
    FieldPrefixFree(a.kind, b.kind, a2, b2);
    FieldPrefixFree(a.payload, b.payload, Field(a.created), Field(b.created));
    assert Field(a.created) + [] == Field(b.created) + [];
    FieldPrefixFree(a.created, b.created, [], []);
  }

  lemma EncodeResponseInjective(a: Option<Str>, b: Option<Str>, x: seq<byte>, y: seq<byte>)
    requires EncodeResponse(a, x) == EncodeResponse(b, y)
    ensures a == b && x == y
  {
    assert EncodeResponse(a, x)[0] == EncodeResponse(b, y)[0];
    if a.Some? {
      assert EncodeResponse(a, x)[1..] == Field(a.value) + x;
      assert EncodeResponse(b, y)[1..] == Field(b.value) + y;
      FieldPrefixFree(a.value, b.value, x, y);
    } else {
      assert EncodeResponse(a, x)[1..] == x && EncodeResponse(b, y)[1..] == y;
    }
  }

  /** The bytes a row is hashed over determine the row. */
  lemma EncodeInjective(a: Row, b: Row)
    requires Encode(a) == Encode(b)
    ensures a == b
  {
    var a3, b3 := EncodeResponse(a.response, EncodeTail(a)), EncodeResponse(b.response, EncodeTail(b));
    FieldPrefixFree(a.id, b.id, Field(a.project) + (Field(a.session) + a3),
                    Field(b.project) + (Field(b.session) + b3));
    FieldPrefixFree(a.project, b.project, Field(a.session) + a3, Field(b.session) + b3);
    FieldPrefixFree(a.session, b.session, a3, b3);
    EncodeResponseInjective(a.response, b.response, EncodeTail(a), EncodeTail(b));
    EncodeTailInjective(a, b);
  }

  lemma Reassociate(a: seq<byte>, b: seq<byte>, c: seq<byte>, d: seq<byte>, e: seq<byte>, f: seq<byte>)
    ensures a + b + c + d + e + f == a + (b + (c + (d + (e + f))))
  {
  }

  /** `Row.digest`: the hasher's input is written field by field. */
  method RowDigest(hash: Hash, r: Row) returns (d: Digest)
    ensures d == hash(Encode(r))
  {
    var h: seq<byte> := Field(r.id);
    h := h + Field(r.project);
    h := h + Field(r.session);
    if r.response.Some? {
      h := h + [1];
      h := h + Field(r.response.value);
    } else {
      h := h + [0];
    }
    ghost var head := h;
    h := h + Field(Decimal(r.seqno));
    h := h + Field(Decimal(r.journal));
    h := h + Field(r.kind);
    h := h + Field(r.payload);
    h := h + Field(r.created);
    Reassociate(head, Field(Decimal(r.seqno)), Field(Decimal(r.journal)),
                Field(r.kind), Field(r.payload), Field(r.created));
    if r.response.Some? {
      Reassociate(Field(r.id), Field(r.project), Field(r.session), [1], Field(r.response.value), EncodeTail(r));
    } else {
      Reassociate(Field(r.id), Field(r.project), Field(r.session), [0], [], EncodeTail(r));
      assert [] + EncodeTail(r) == EncodeTail(r);
      assert head + [] == head;
    }
    d := hash(h);
  }

  // --- the fold ------------------------------------------------------------------------------

  function Zeros(): Digest {
    seq(32, _ => 0)
  }

  /** h(0) is 32 zero bytes, h(i) = hash(h(i-1) || hash(message i)). */
  function Chain(hash: Hash, msgs: seq<seq<byte>>): Digest {
    if msgs == [] then Zeros()
    else hash(Chain(hash, msgs[..|msgs| - 1]) + hash(msgs[|msgs| - 1]))
  }

  /** Every byte string hashed while `msgs` are chained. */
  function Hashed(hash: Hash, msgs: seq<seq<byte>>): set<seq<byte>> {
    if msgs == [] then {}
    else
      var n := |msgs| - 1;
      Hashed(hash, msgs[..n]) + {Chain(hash, msgs[..n]) + hash(msgs[n]), msgs[n]}
  }

  /** Two different byte strings, one from each side, that hash to the same digest. */
  ghost predicate Collide(hash: Hash, a: set<seq<byte>>, b: set<seq<byte>>) {
    exists x, y :: x in a && y in b && x != y && hash(x) == hash(y)
  }

  lemma Collision(hash: Hash, a: set<seq<byte>>, b: set<seq<byte>>, x: seq<byte>, y: seq<byte>)
    requires x in a && y in b && x != y && hash(x) == hash(y)
    ensures Collide(hash, a, b)
  {
  }

  lemma CollideGrows(hash: Hash, a: set<seq<byte>>, b: set<seq<byte>>, a': set<seq<byte>>, b': set<seq<byte>>)
    requires Collide(hash, a, b) && a <= a' && b <= b'
    ensures Collide(hash, a', b')
  {
    var x, y :| x in a && y in b && x != y && hash(x) == hash(y);
    assert x in a' && y in b';
  }

  lemma SplitDigests(a: Digest, b: Digest, x: Digest, y: Digest)
    requires a + x == b + y
    ensures a == b && x == y
  {
    assert (a + x)[..32] == a && (b + y)[..32] == b;
    assert (a + x)[32..] == x && (b + y)[32..] == y;
  }

  /** Equal chains over equally many messages are over the same messages, or the two computations
      hashed a collision. */
  lemma {:induction false} ChainInjective(hash: Hash, a: seq<seq<byte>>, b: seq<seq<byte>>)
    requires |a| == |b| && Chain(hash, a) == Chain(hash, b)
    ensures a == b || Collide(hash, Hashed(hash, a), Hashed(hash, b))
  {
    if a != [] {
      var n := |a| - 1;
      var la: seq<byte> := Chain(hash, a[..n]) + hash(a[n]);
      var lb: seq<byte> := Chain(hash, b[..n]) + hash(b[n]);
      if la != lb {
        Collision(hash, Hashed(hash, a), Hashed(hash, b), la, lb);
      } else {
        SplitDigests(Chain(hash, a[..n]), Chain(hash, b[..n]), hash(a[n]), hash(b[n]));
        if a[n] != b[n] {
          Collision(hash, Hashed(hash, a), Hashed(hash, b), a[n], b[n]);
        } else {
          ChainInjective(hash, a[..n], b[..n]);
          if a[..n] == b[..n] {
            assert a == a[..n] + [a[n]] && b == b[..n] + [b[n]];
          } else {
            CollideGrows(hash, Hashed(hash, a[..n]), Hashed(hash, b[..n]), Hashed(hash, a), Hashed(hash, b));
          }
        }
      }
    }
  }

  function Encodings(rows: seq<Row>): (msgs: seq<seq<byte>>)
    ensures |msgs| == |rows|
  {
    seq(|rows|, i requires 0 <= i < |rows| => Encode(rows[i]))
  }

  lemma EncodingsInjective(a: seq<Row>, b: seq<Row>)
    requires Encodings(a) == Encodings(b)
    ensures a == b
  {
    forall i | 0 <= i < |a| ensures a[i] == b[i] {
      assert Encodings(a)[i] == Encodings(b)[i];
      EncodeInjective(a[i], b[i]);
    }
  }

  // --- canonical order -----------------------------------------------------------------------

  predicate RowLess(a: Row, b: Row) {
    if a.session != b.session then Less(a.session, b.session) else a.seqno < b.seqno
  }

  predicate SameKey(a: Row, b: Row) {
    a.session == b.session && a.seqno == b.seqno
  }

  predicate Sorted(rows: seq<Row>) {
    forall i, j :: 0 <= i < j < |rows| ==> !RowLess(rows[j], rows[i])
  }

  /** (session_id, seq) names one row: the journal's unique constraint. */
  predicate KeyedBy(rows: seq<Row>) {
    forall i, j :: 0 <= i < |rows| && 0 <= j < |rows| && SameKey(rows[i], rows[j]) ==> rows[i] == rows[j]
  }

  lemma RowLessTotal(a: Row, b: Row)
    ensures SameKey(a, b) || RowLess(a, b) || RowLess(b, a)
  {
    LessTotal(a.session, b.session);
  }

  lemma RowLessTransitive(a: Row, b: Row, c: Row)
    requires !RowLess(b, a) && !RowLess(c, b)
    ensures !RowLess(c, a)
  {
    LessTotal(a.session, b.session);
    LessTotal(b.session, c.session);
    if RowLess(c, a) && c.session != a.session {
      LessIrreflexive(a.session);
      if Less(a.session, b.session) {
        LessTransitive(c.session, a.session, b.session);
      } else if Less(b.session, c.session) {
        LessTransitive(b.session, c.session, a.session);
      }
    }
  }

  predicate NoneBelow(r: Row, rows: seq<Row>) {
    forall j :: 0 <= j < |rows| ==> !RowLess(rows[j], r)
  }

  function Cons(r: Row, rows: seq<Row>): (out: seq<Row>)
    requires Sorted(rows) && NoneBelow(r, rows)
    ensures Sorted(out) && multiset(out) == multiset(rows) + multiset{r}
  {
    [r] + rows
  }

  function Insert(r: Row, rows: seq<Row>): (out: seq<Row>)
    requires Sorted(rows)
    ensures Sorted(out) && multiset(out) == multiset(rows) + multiset{r}
  {
    if rows == [] || !RowLess(rows[0], r) then
      InsertInFront(r, rows);
      Cons(r, rows)
    else
      var rest := Insert(r, rows[1..]);
      assert rows == [rows[0]] + rows[1..];
      InsertKeepsMinimum(r, rows, rest);
      Cons(rows[0], rest)
  }

  lemma InsertInFront(r: Row, rows: seq<Row>)
    requires Sorted(rows)
    requires rows == [] || !RowLess(rows[0], r)
    ensures NoneBelow(r, rows)
  {
    forall j | 0 <= j < |rows| ensures !RowLess(rows[j], r) {
      if j > 0 { RowLessTransitive(r, rows[0], rows[j]); }
    }
  }

  lemma InsertKeepsMinimum(r: Row, rows: seq<Row>, rest: seq<Row>)
    requires Sorted(rows) && rows != [] && RowLess(rows[0], r)
    requires multiset(rest) == multiset(rows[1..]) + multiset{r}
    ensures NoneBelow(rows[0], rest)
  {
    forall j | 0 <= j < |rest| ensures !RowLess(rest[j], rows[0]) {
      assert rest[j] in multiset(rest);
      if rest[j] == r {
        RowLessAsymmetric(rows[0], r);
      } else {
        assert rest[j] in rows[1..];
      }
    }
  }

  lemma RowLessAsymmetric(a: Row, b: Row)
    requires RowLess(a, b)
    ensures !RowLess(b, a)
  {
    if RowLess(b, a) && a.session != b.session {
      LessTransitive(a.session, b.session, a.session);
      LessIrreflexive(a.session);
    }
  }

  function SortRows(rows: seq<Row>): (out: seq<Row>)
    ensures Sorted(out) && multiset(out) == multiset(rows)
  {
    if rows == [] then []
    else
      assert rows == [rows[0]] + rows[1..];
      Insert(rows[0], SortRows(rows[1..]))
  }

  lemma SameFirst(a: seq<Row>, b: seq<Row>)
    requires Sorted(a) && Sorted(b) && multiset(a) == multiset(b) && KeyedBy(a)
    requires a != [] && b != []
    ensures a[0] == b[0]
  {
    assert b[0] in multiset(a) && a[0] in multiset(b);
    var i :| 0 <= i < |a| && a[i] == b[0];
    var k :| 0 <= k < |b| && b[k] == a[0];
    RowLessTotal(a[0], b[0]);
    assert SameKey(a[0], a[i]);
  }

  /** Under the journal's unique key there is one sorted order: an unstable sort cannot choose. */
  lemma {:induction false} SortedUnique(a: seq<Row>, b: seq<Row>)
    requires Sorted(a) && Sorted(b) && multiset(a) == multiset(b) && KeyedBy(a)
    ensures a == b
  {
    assert |multiset(a)| == |multiset(b)|;
    if a != [] {
      SameFirst(a, b);
      assert a == [a[0]] + a[1..] && b == [b[0]] + b[1..];
      assert multiset(a[1..]) == multiset(a) - multiset{a[0]};
      assert multiset(b[1..]) == multiset(b) - multiset{b[0]};
      SortedUnique(a[1..], b[1..]);
    }
  }

  lemma KeyedByPermutes(a: seq<Row>, b: seq<Row>)
    requires multiset(a) == multiset(b) && KeyedBy(a)
    ensures KeyedBy(b)
  {
    forall i, j | 0 <= i < |b| && 0 <= j < |b| && SameKey(b[i], b[j]) ensures b[i] == b[j] {
      assert b[i] in multiset(a) && b[j] in multiset(a);
    }
  }

  /** Two rows with one key may change places in a sorted order. */
  lemma SwapSameKey(rows: seq<Row>, i: nat, j: nat)
    requires Sorted(rows) && i < |rows| && j < |rows| && SameKey(rows[i], rows[j])
    ensures var swapped := rows[i := rows[j]][j := rows[i]];
      Sorted(swapped) && multiset(swapped) == multiset(rows)
  {
    var swapped := rows[i := rows[j]][j := rows[i]];
    forall k | 0 <= k < |rows| ensures SameKey(swapped[k], rows[k]) { }
    forall k, l | 0 <= k < l < |swapped| ensures !RowLess(swapped[l], swapped[k]) {
      assert SameKey(swapped[k], rows[k]) && SameKey(swapped[l], rows[l]);
    }
  }

  lemma AnotherOrder(a: seq<Row>) returns (b: seq<Row>)
    requires Sorted(a) && !KeyedBy(a)
    ensures Sorted(b) && multiset(b) == multiset(a) && b != a
  {
    var i, j :| 0 <= i < |a| && 0 <= j < |a| && SameKey(a[i], a[j]) && a[i] != a[j];
    SwapSameKey(a, i, j);
    b := a[i := a[j]][j := a[i]];
    assert b[j] != a[j];
  }

  /** Without the key - two rows with one key and different bytes - there are two sorted orders of all the
      rows to choose from. */
  lemma KeyedByIsNeeded(rows: seq<Row>) returns (a: seq<Row>, b: seq<Row>)
    requires !KeyedBy(rows)
    ensures Sorted(a) && Sorted(b) && multiset(a) == multiset(b) == multiset(rows) && a != b
  {
    a := SortRows(rows);
    if KeyedBy(a) { KeyedByPermutes(a, rows); }
    b := AnotherOrder(a);
  }

  // --- Head ----------------------------------------------------------------------------------

  const PREFIX: seq<byte> := [115, 104, 97, 50, 53, 54, 58] // "sha256:"

  function HeadOf(hash: Hash, rows: seq<Row>): seq<byte> {
    PREFIX + Hex(Chain(hash, Encodings(SortRows(rows))))
  }

  /** Everything hashed when the head of `rows` is computed. */
  function HeadInputs(hash: Hash, rows: seq<Row>): set<seq<byte>> {
    Hashed(hash, Encodings(SortRows(rows)))
  }

  /** The head does not depend on the order the rows arrive in. */
  lemma HeadPermutes(hash: Hash, a: seq<Row>, b: seq<Row>)
    requires multiset(a) == multiset(b) && KeyedBy(a)
    ensures HeadOf(hash, a) == HeadOf(hash, b) && HeadInputs(hash, a) == HeadInputs(hash, b)
  {
    KeyedByPermutes(a, SortRows(a));
    SortedUnique(SortRows(a), SortRows(b));
  }

  /** Equal heads over equally many rows: the same rows, or a collision among what was hashed. */
  lemma HeadInjective(hash: Hash, a: seq<Row>, b: seq<Row>)
    requires |a| == |b| && HeadOf(hash, a) == HeadOf(hash, b)
    ensures multiset(a) == multiset(b) || Collide(hash, HeadInputs(hash, a), HeadInputs(hash, b))
  {
    assert |multiset(SortRows(a))| == |multiset(SortRows(b))|;
    var ma, mb := Encodings(SortRows(a)), Encodings(SortRows(b));
    assert HeadOf(hash, a)[7..] == Hex(Chain(hash, ma)) && HeadOf(hash, b)[7..] == Hex(Chain(hash, mb));
    HexInjective(Chain(hash, ma), Chain(hash, mb));
    ChainInjective(hash, ma, mb);
    if ma == mb { EncodingsInjective(SortRows(a), SortRows(b)); }
  }

  /** `sort.Slice`: some sorted permutation; which one among equal keys is not promised. */
  method SortSlice(rows: seq<Row>) returns (ordered: seq<Row>)
    ensures Sorted(ordered) && multiset(ordered) == multiset(rows)
  {
    ordered := SortRows(rows);
  }

  lemma ChainStep(hash: Hash, msgs: seq<seq<byte>>, i: nat)
    requires i < |msgs|
    ensures Chain(hash, msgs[..i + 1]) == hash(Chain(hash, msgs[..i]) + hash(msgs[i]))
  {
    var m := msgs[..i + 1];
    assert m[..|m| - 1] == msgs[..i] && m[|m| - 1] == msgs[i];
  }

  method FoldRows(hash: Hash, ordered: seq<Row>) returns (acc: Digest)
    ensures acc == Chain(hash, Encodings(ordered))
  {
    acc := Zeros();
    ghost var msgs := Encodings(ordered);
    for i := 0 to |ordered|
      invariant acc == Chain(hash, msgs[..i])
    {
      var d := RowDigest(hash, ordered[i]);
      assert msgs[i] == Encode(ordered[i]);
      ChainStep(hash, msgs, i);
      acc := hash(acc + d);
    }
    assert msgs[..|ordered|] == msgs;
  }

  /** Whatever order the unstable sort settles on, the head is the chain along it; under the
      journal's unique key that is the one canonical head. */
  method Head(hash: Hash, rows: seq<Row>) returns (head: seq<byte>, ghost ordered: seq<Row>)
    ensures Sorted(ordered) && multiset(ordered) == multiset(rows)
    ensures head == PREFIX + Hex(Chain(hash, Encodings(ordered)))
    ensures KeyedBy(rows) ==> head == HeadOf(hash, rows)
  {
    var slice := SortSlice(rows);
    var acc := FoldRows(hash, slice);
    head, ordered := PREFIX + Hex(acc), slice;
    if KeyedBy(rows) {
      KeyedByPermutes(rows, ordered);
      SortedUnique(ordered, SortRows(rows));
    }
  }
}
