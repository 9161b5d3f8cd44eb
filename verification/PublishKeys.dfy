/** The identities of a publication (adapters/repositories/publish.go:61-85): fields joined by NUL and
    hashed. The hash is a parameter; equal identities mean equal fields or two inputs that collide. */
module PublishKeys {
  import opened Bytes

  type Digest16 = d: seq<byte> | |d| == 16 witness seq(16, _ => 0)

  /** sha256 cut to its first sixteen bytes. */
  type Hash = seq<byte> -> Digest16

  datatype Operation = PushBranch | OpenPullRequest | MergePullRequest

  datatype Publication = Publication(
    project: seq<byte>, run: seq<byte>, op: Operation, remote: seq<byte>, branch: seq<byte>, base: seq<byte>,
    head: seq<byte>)

  /** "push_branch", "open_pull_request", "merge_pull_request". */
  function OpName(op: Operation): seq<byte> {
    match op
    case PushBranch => [112, 117, 115, 104, 95, 98, 114, 97, 110, 99, 104]
    case OpenPullRequest => [111, 112, 101, 110, 95, 112, 117, 108, 108, 95, 114, 101, 113, 117, 101, 115, 116]
    case MergePullRequest => [109, 101, 114, 103, 101, 95, 112, 117, 108, 108, 95, 114, 101, 113, 117, 101, 115, 116]
  }

  /** strings.Join(parts, "\x00"). */
  function Join(parts: seq<seq<byte>>): seq<byte> {
    if parts == [] then []
    else if |parts| == 1 then parts[0]
    else parts[0] + ([0] + Join(parts[1..]))
  }

  function KeyParts(p: Publication): seq<seq<byte>> {
    if p.op.OpenPullRequest? then [p.project, p.run, OpName(p.op), p.remote, p.branch, p.base]
    else [p.project, p.run, OpName(p.op), p.remote, p.branch, p.base, p.head]
  }

  function RequestParts(p: Publication): seq<seq<byte>> {
    [p.project, p.run, OpName(p.op), p.remote, p.branch, p.base, p.head]
  }

  /** The digits after "pub_" and after "req_". */
  function IdempotencyKey(hash: Hash, p: Publication): seq<byte> {
    Hex(hash(Join(KeyParts(p))))
  }

  function RequestHash(hash: Hash, p: Publication): seq<byte> {
    Hex(hash(Join(RequestParts(p))))
  }

  // --- joining loses nothing -----------------------------------------------------------------

  predicate NoNul(s: seq<byte>) {
    forall i :: 0 <= i < |s| ==> s[i] != 0
  }

  predicate AllNoNul(parts: seq<seq<byte>>) {
    forall i :: 0 <= i < |parts| ==> NoNul(parts[i])
  }

  lemma FirstNul(a: seq<byte>, b: seq<byte>, x: seq<byte>, y: seq<byte>)
    requires NoNul(a) && NoNul(b) && a + ([0] + x) == b + ([0] + y)
    ensures a == b && x == y
  {
    var s := a + ([0] + x);
    assert s[|a|] == 0 && (b + ([0] + y))[|b|] == 0;
    assert |a| == |b|;
    assert s[..|a|] == a && (b + ([0] + y))[..|b|] == b;
    assert s[|a| + 1..] == x && (b + ([0] + y))[|b| + 1..] == y;
  }

  lemma JoinHasNul(parts: seq<seq<byte>>)
    requires parts != [] && AllNoNul(parts)
    ensures NoNul(Join(parts)) <==> |parts| == 1
  {
    if |parts| > 1 { assert Join(parts)[|parts[0]|] == 0; }
  }

  lemma {:induction false} JoinInjective(a: seq<seq<byte>>, b: seq<seq<byte>>)
    requires a != [] && b != [] && AllNoNul(a) && AllNoNul(b) && Join(a) == Join(b)
    ensures a == b
  {
    JoinHasNul(a);
    JoinHasNul(b);
    if |a| == 1 {
      assert a == [a[0]] && b == [b[0]];
    } else {
      FirstNul(a[0], b[0], Join(a[1..]), Join(b[1..]));
      JoinInjective(a[1..], b[1..]);
      assert a == [a[0]] + a[1..] && b == [b[0]] + b[1..];
    }
  }

  predicate Clean(p: Publication) {
    NoNul(p.project) && NoNul(p.run) && NoNul(p.remote) && NoNul(p.branch) && NoNul(p.base) && NoNul(p.head)
  }

  lemma OpNamesDiffer(a: Operation, b: Operation)
    requires OpName(a) == OpName(b)
    ensures a == b
  {
    assert |OpName(PushBranch)| == 11 && |OpName(OpenPullRequest)| == 17 && |OpName(MergePullRequest)| == 18;
  }

  lemma OpNameNoNul(op: Operation)
    ensures NoNul(OpName(op))
  {
  }

  lemma RequestPartsInjective(p: Publication, q: Publication)
    requires RequestParts(p) == RequestParts(q)
    ensures p == q
  {
    var a, b := RequestParts(p), RequestParts(q);
    assert a[0] == b[0] && a[1] == b[1] && a[2] == b[2] && a[3] == b[3] && a[4] == b[4] && a[5] == b[5] && a[6] == b[6];
    OpNamesDiffer(p.op, q.op);
  }

  lemma RequestPartsClean(p: Publication)
    requires Clean(p)
    ensures AllNoNul(RequestParts(p)) && |RequestParts(p)| == 7
  {
    OpNameNoNul(p.op);
  }

  /** An approval's hash binds the whole operation, head included: two publications with one request hash
      are the same publication, or the hash collided on what was hashed for them. */
  lemma RequestHashBinds(hash: Hash, p: Publication, q: Publication)
    requires Clean(p) && Clean(q) && RequestHash(hash, p) == RequestHash(hash, q)
    ensures p == q || (Join(RequestParts(p)) != Join(RequestParts(q))
                       && hash(Join(RequestParts(p))) == hash(Join(RequestParts(q))))
  {
    HexInjective(hash(Join(RequestParts(p))), hash(Join(RequestParts(q))));
    if Join(RequestParts(p)) == Join(RequestParts(q)) {
      RequestPartsClean(p);
      RequestPartsClean(q);
      JoinInjective(RequestParts(p), RequestParts(q));
      RequestPartsInjective(p, q);
    }
  }

  lemma KeyPartsClean(p: Publication)
    requires Clean(p)
    ensures AllNoNul(KeyParts(p)) && KeyParts(p) != []
  {
    OpNameNoNul(p.op);
  }

  lemma KeyPartsBind(p: Publication, q: Publication)
    requires KeyParts(p) == KeyParts(q)
    ensures q == p.(head := q.head) && (p.op.OpenPullRequest? || q.head == p.head)
  {
    var a, b := KeyParts(p), KeyParts(q);
    assert a[0] == b[0] && a[1] == b[1] && a[2] == b[2] && a[3] == b[3] && a[4] == b[4] && a[5] == b[5];
    OpNamesDiffer(p.op, q.op);
    if !p.op.OpenPullRequest? { assert a[6] == b[6]; }
  }

  /** Two publications share a key exactly when they are the same operation of the same run on the same remote,
      branch and base, and of the same head unless it is a pull request; or the hash collided. */
  lemma KeyBinds(hash: Hash, p: Publication, q: Publication)
    requires Clean(p) && Clean(q)
    ensures q == p.(head := q.head) && (p.op.OpenPullRequest? || q.head == p.head)
            ==> IdempotencyKey(hash, p) == IdempotencyKey(hash, q)
    ensures IdempotencyKey(hash, p) == IdempotencyKey(hash, q)
            ==> (q == p.(head := q.head) && (p.op.OpenPullRequest? || q.head == p.head))
                || (Join(KeyParts(p)) != Join(KeyParts(q)) && hash(Join(KeyParts(p))) == hash(Join(KeyParts(q))))
  {
    if IdempotencyKey(hash, p) == IdempotencyKey(hash, q) {
      HexInjective(hash(Join(KeyParts(p))), hash(Join(KeyParts(q))));
      if Join(KeyParts(p)) == Join(KeyParts(q)) {
        KeyPartsClean(p);
        KeyPartsClean(q);
        JoinInjective(KeyParts(p), KeyParts(q));
        KeyPartsBind(p, q);
      }
    }
  }

  /** A pull request keeps its key as its branch moves; a push or a merge of a new head is a new one. */
  lemma HeadInKey(hash: Hash, p: Publication, head: seq<byte>)
    requires Clean(p) && NoNul(head) && head != p.head
    ensures p.op.OpenPullRequest? ==> IdempotencyKey(hash, p) == IdempotencyKey(hash, p.(head := head))
    ensures !p.op.OpenPullRequest? && IdempotencyKey(hash, p) == IdempotencyKey(hash, p.(head := head))
            ==> Join(KeyParts(p)) != Join(KeyParts(p.(head := head)))
                && hash(Join(KeyParts(p))) == hash(Join(KeyParts(p.(head := head))))
  {
    if !p.op.OpenPullRequest? && IdempotencyKey(hash, p) == IdempotencyKey(hash, p.(head := head)) {
      assert KeyParts(p) == RequestParts(p) && KeyParts(p.(head := head)) == RequestParts(p.(head := head));
      RequestHashBinds(hash, p, p.(head := head));
    }
  }

  lemma Slide(a: seq<byte>, b: seq<byte>, c: seq<byte>, tail: seq<byte>)
    ensures (a + ([0] + b)) + ([0] + (c + tail)) == a + ([0] + ((b + ([0] + c)) + tail))
  {
  }

  lemma JoinRequest(p: Publication, rest: seq<seq<byte>>)
    requires rest == [OpName(p.op), p.remote, p.branch, p.base, p.head]
    ensures Join(RequestParts(p)) == p.project + ([0] + (p.run + ([0] + Join(rest))))
  {
    JoinTwo(p.project, p.run, RequestParts(p), rest);
  }

  /** A NUL inside a field breaks the binding: the boundary between two fields can slide. */
  lemma NulSlides(hash: Hash, p: Publication, a: seq<byte>, b: seq<byte>, c: seq<byte>)
    ensures var x, y := p.(project := a + ([0] + b), run := c), p.(project := a, run := b + ([0] + c));
      x != y && RequestHash(hash, x) == RequestHash(hash, y)
  {
    var x, y := p.(project := a + ([0] + b), run := c), p.(project := a, run := b + ([0] + c));
    var rest := [OpName(p.op), p.remote, p.branch, p.base, p.head];
    JoinRequest(x, rest);
    JoinRequest(y, rest);
    Slide(a, b, c, [0] + Join(rest));
    assert |x.project| > |y.project|;
  }

  lemma JoinTwo(a: seq<byte>, b: seq<byte>, parts: seq<seq<byte>>, rest: seq<seq<byte>>)
    requires rest != [] && parts == [a, b] + rest
    ensures Join(parts) == a + ([0] + (b + ([0] + Join(rest))))
  {
    assert parts[1..] == [b] + rest && ([b] + rest)[1..] == rest;
  }
}
