/** Reading back what the audit chain hashes and prints (packages/audit/chain.go:77-126): a decoder of the row's
    bytes, field after field, and of the head's digits. */
module AuditDecode {
  import opened Base
  import opened Bytes
  import opened AuditChain

  // --- numbers -------------------------------------------------------------------------------

  /** The most significant byte first. */
  function BigValue(s: seq<byte>): nat {
    if s == [] then 0 else s[0] * Pow256(|s| - 1) + BigValue(s[1..])
  }

  lemma {:induction false} BigValueSnoc(s: seq<byte>, b: byte)
    ensures BigValue(s + [b]) == BigValue(s) * 256 + b
  {
    if s == [] {
      assert ([] + [b])[1..] == [] && Pow256(0) == 1;
    } else {
      assert (s + [b])[1..] == s[1..] + [b];
      BigValueSnoc(s[1..], b);
      assert Pow256(|s|) == 256 * Pow256(|s| - 1);
    }
  }

  lemma {:induction false} BigEndianReads(n: nat, width: nat)
    requires n < Pow256(width)
    ensures BigValue(BigEndian(n, width)) == n
  {
    if width > 0 {
      BigEndianReads(n / 256, width - 1);
      BigValueSnoc(BigEndian(n / 256, width - 1), n % 256);
    }
  }

  function ParseInt(s: seq<byte>): int {
    if s != [] && s[0] == MINUS then -Value(s[1..]) else Value(s)
  }

  lemma FormatReads(x: Int64)
    ensures ParseInt(FormatInt(x)) == x
  {
    ValueOfDigits(Abs(x));
    if x < 0 { assert FormatInt(x)[1..] == Digits(Abs(x)); }
  }

  /** 0-9 and a-f. */
  function UnHexDigit(c: byte): int {
    if 48 <= c <= 57 then c - 48 else c - 97 + 10
  }

  function UnHex(h: seq<byte>): seq<int> {
    if |h| < 2 then [] else [UnHexDigit(h[0]) * 16 + UnHexDigit(h[1])] + UnHex(h[2..])
  }

  lemma {:induction false} HexReads(s: seq<byte>)
    ensures UnHex(Hex(s)) == s
  {
    if s != [] {
      HexReads(s[1..]);
      assert Hex(s)[2..] == Hex(s[1..]);
    }
  }

  // --- fields --------------------------------------------------------------------------------

  /** Eight bytes of length, then that many of content; and what is left. */
  function ReadField(s: seq<byte>): Option<(Str, seq<byte>)> {
    if |s| < 8 then None
    else
      var n := BigValue(s[..8]);
      if n < 0x8000_0000_0000_0000 && 8 + n <= |s| then Some((s[8..8 + n], s[8 + n..])) else None
  }

  lemma FieldReads(v: Str, rest: seq<byte>)
    ensures ReadField(Field(v) + rest) == Some((v, rest))
  {
    var s := Field(v) + rest;
    Pow256Of8();
    BigEndianReads(|v|, 8);
    assert s[..8] == BigEndian(|v|, 8);
    assert s[8..8 + |v|] == v && s[8 + |v|..] == rest;
  }

  function ReadFields(s: seq<byte>, n: nat): Option<(seq<Str>, seq<byte>)> {
    if n == 0 then Some(([], s))
    else
      match ReadField(s)
      case None => None
      case Some((v, rest)) =>
        match ReadFields(rest, n - 1)
        case None => None
        case Some((vs, left)) => Some(([v] + vs, left))
  }

  function Written(vs: seq<Str>, rest: seq<byte>): seq<byte> {
    if vs == [] then rest else Field(vs[0]) + Written(vs[1..], rest)
  }

  lemma {:induction false} FieldsRead(vs: seq<Str>, rest: seq<byte>)
    ensures ReadFields(Written(vs, rest), |vs|) == Some((vs, rest))
  {
    if vs != [] {
      FieldReads(vs[0], Written(vs[1..], rest));
      FieldsRead(vs[1..], rest);
      assert vs == [vs[0]] + vs[1..];
    }
  }

  // --- rows ----------------------------------------------------------------------------------

  function ReadResponse(s: seq<byte>): Option<(Option<Str>, seq<byte>)> {
    if s == [] then None
    else if s[0] == 0 then Some((None, s[1..]))
    else if s[0] != 1 then None
    else
      match ReadField(s[1..])
      case None => None
      case Some((v, rest)) => Some((Some(v), rest))
  }

  function RowFrom(head: seq<Str>, response: Option<Str>, tail: seq<Str>): Option<Row>
    requires |head| == 3 && |tail| == 5
  {
    var seqno, journal := ParseInt(tail[0]), ParseInt(tail[1]);
    if
      && -0x8000_0000_0000_0000 <= seqno < 0x8000_0000_0000_0000
      && -0x8000_0000_0000_0000 <= journal < 0x8000_0000_0000_0000
    then Some(Row(head[0], head[1], head[2], response, seqno, journal, tail[2], tail[3], tail[4]))
    else None
  }

  lemma {:induction false} ReadFieldsLength(s: seq<byte>, n: nat)
    ensures ReadFields(s, n).Some? ==> |ReadFields(s, n).value.0| == n
  {
    if n > 0 && ReadField(s).Some? { ReadFieldsLength(ReadField(s).value.1, n - 1); }
  }

  /** Id, project and session; the response or its absence; then seq, journal seq, type, payload and time. */
  function Decode(s: seq<byte>): Option<Row> {
    match ReadFields(s, 3)
    case None => None
    case Some((head, rest)) =>
      match ReadResponse(rest)
      case None => None
      case Some((response, more)) =>
        match ReadFields(more, 5)
        case None => None
        case Some((tail, left)) =>
          ReadFieldsLength(s, 3);
          ReadFieldsLength(more, 5);
          if left == [] then RowFrom(head, response, tail) else None
  }

  lemma TailReads(r: Row)
    ensures ReadFields(EncodeTail(r), 5)
            == Some(([Decimal(r.seqno), Decimal(r.journal), r.kind, r.payload, r.created], []))
  {
    var vs: seq<Str> := [Decimal(r.seqno), Decimal(r.journal), r.kind, r.payload, r.created];
    assert vs[1..] == [Decimal(r.journal), r.kind, r.payload, r.created];
    assert vs[1..][1..] == [r.kind, r.payload, r.created];
    assert vs[1..][1..][1..] == [r.payload, r.created];
    assert vs[1..][1..][1..][1..] == [r.created];
    assert Field(r.created) + [] == Field(r.created);
    assert Written([r.created], []) == Field(r.created);
    assert Written([r.payload, r.created], []) == Field(r.payload) + Field(r.created);
    assert Written([r.kind, r.payload, r.created], []) == Field(r.kind) + (Field(r.payload) + Field(r.created));
    assert Written(vs, []) == EncodeTail(r);
    FieldsRead(vs, []);
  }

  lemma HeadReads(r: Row, rest: seq<byte>)
    ensures ReadFields(Field(r.id) + (Field(r.project) + (Field(r.session) + rest)), 3)
            == Some(([r.id, r.project, r.session], rest))
  {
    var vs: seq<Str> := [r.id, r.project, r.session];
    assert vs[1..] == [r.project, r.session] && vs[1..][1..] == [r.session];
    assert Written([r.session], rest) == Field(r.session) + rest;
    assert Written(vs, rest) == Field(r.id) + (Field(r.project) + (Field(r.session) + rest));
    FieldsRead(vs, rest);
  }

  lemma ResponseReads(o: Option<Str>, rest: seq<byte>)
    ensures ReadResponse(EncodeResponse(o, rest)) == Some((o, rest))
  {
    var s := EncodeResponse(o, rest);
    if o.Some? {
      assert s[1..] == Field(o.value) + rest;
      FieldReads(o.value, rest);
    } else {
      assert s[1..] == rest;
    }
  }

  lemma RowReads(r: Row)
    ensures RowFrom([r.id, r.project, r.session], r.response,
                    [Decimal(r.seqno), Decimal(r.journal), r.kind, r.payload, r.created]) == Some(r)
  {
    FormatReads(r.seqno);
    FormatReads(r.journal);
  }

  /** What a row is hashed over, read back, is the row: each field in its place. */
  lemma EncodeReads(r: Row)
    ensures Decode(Encode(r)) == Some(r)
  {
    var more := EncodeTail(r);
    HeadReads(r, EncodeResponse(r.response, more));
    ResponseReads(r.response, more);
    TailReads(r);
    RowReads(r);
  }

  // --- heads ---------------------------------------------------------------------------------

  /** The head of nothing is 32 zero bytes; of one more row at the end, the hash of the head before it and the
      row's own digest. */
  lemma ChainOf(hash: Hash, msgs: seq<seq<byte>>, m: seq<byte>)
    ensures Chain(hash, []) == seq(32, _ => 0)
    ensures Chain(hash, msgs + [m]) == hash(Chain(hash, msgs) + hash(m))
  {
    assert (msgs + [m])[..|msgs|] == msgs;
  }

  /** "sha256:" and the digits of the chain along the rows in order. */
  lemma HeadReadsBack(hash: Hash, rows: seq<Row>, ordered: seq<Row>)
    requires Sorted(ordered) && multiset(ordered) == multiset(rows) && KeyedBy(rows)
    ensures HeadOf(hash, rows)[..7] == [115, 104, 97, 50, 53, 54, 58]
    ensures UnHex(HeadOf(hash, rows)[7..]) == Chain(hash, Encodings(ordered))
  {
    KeyedByPermutes(rows, ordered);
    SortedUnique(ordered, SortRows(rows));
    assert HeadOf(hash, rows)[7..] == Hex(Chain(hash, Encodings(ordered)));
    HexReads(Chain(hash, Encodings(ordered)));
  }
}
