/** Lists ordered by a string key: Go's sort.Strings and sort.Slice over session ids. */
module KeyOrder {
  import opened Bytes

  ghost predicate Ascending<T(!new)>(xs: seq<T>, key: T -> Str) {
    forall i, j :: 0 <= i < j < |xs| ==> !Less(key(xs[j]), key(xs[i]))
  }

  ghost predicate Strict<T(!new)>(xs: seq<T>, key: T -> Str) {
    forall i, j :: 0 <= i < j < |xs| ==> Less(key(xs[i]), key(xs[j]))
  }

  ghost predicate Distinct<T(!new)>(xs: seq<T>, key: T -> Str) {
    forall i, j :: 0 <= i < j < |xs| ==> key(xs[i]) != key(xs[j])
  }

  lemma NotLessTransitive(a: Str, b: Str, c: Str)
    requires !Less(b, a) && !Less(c, b)
    ensures !Less(c, a)
  {
    LessTotal(a, b);
    LessTotal(b, c);
    if Less(c, a) && a != b && b != c {
      LessTransitive(a, b, c);
      LessTransitive(a, c, a);
      LessIrreflexive(a);
    }
  }

  ghost predicate AtMostAll<T(!new)>(x: T, xs: seq<T>, key: T -> Str) {
    forall j :: 0 <= j < |xs| ==> !Less(key(xs[j]), key(x))
  }

  function Cons<T(!new)>(x: T, xs: seq<T>, key: T -> Str): (out: seq<T>)
    requires Ascending(xs, key) && AtMostAll(x, xs, key)
    ensures Ascending(out, key) && multiset(out) == multiset(xs) + multiset{x}
  {
    [x] + xs
  }

  function Insert<T(!new)>(x: T, xs: seq<T>, key: T -> Str): (out: seq<T>)
    requires Ascending(xs, key)
    ensures Ascending(out, key) && multiset(out) == multiset(xs) + multiset{x}
  {
    if xs == [] || !Less(key(xs[0]), key(x)) then
      FirstIsLeast(x, xs, key);
      Cons(x, xs, key)
    else
      var rest := Insert(x, xs[1..], key);
      assert xs == [xs[0]] + xs[1..];
      FirstStaysFirst(x, xs, rest, key);
      Cons(xs[0], rest, key)
  }

  lemma FirstIsLeast<T(!new)>(x: T, xs: seq<T>, key: T -> Str)
    requires Ascending(xs, key)
    requires xs == [] || !Less(key(xs[0]), key(x))
    ensures AtMostAll(x, xs, key)
  {
    forall j | 0 <= j < |xs| ensures !Less(key(xs[j]), key(x)) {
      if j > 0 { NotLessTransitive(key(x), key(xs[0]), key(xs[j])); }
    }
  }

  lemma FirstStaysFirst<T(!new)>(x: T, xs: seq<T>, rest: seq<T>, key: T -> Str)
    requires Ascending(xs, key) && xs != [] && Less(key(xs[0]), key(x))
    requires multiset(rest) == multiset(xs[1..]) + multiset{x}
    ensures AtMostAll(xs[0], rest, key)
  {
    forall j | 0 <= j < |rest| ensures !Less(key(rest[j]), key(xs[0])) {
      assert rest[j] in multiset(rest);
      if rest[j] == x {
        if Less(key(x), key(xs[0])) {
          LessTransitive(key(x), key(xs[0]), key(x));
          LessIrreflexive(key(x));
        }
      } else {
        assert rest[j] in xs[1..];
      }
    }
  }

  function Sort<T(!new)>(xs: seq<T>, key: T -> Str): (out: seq<T>)
    ensures Ascending(out, key) && multiset(out) == multiset(xs)
  {
    if xs == [] then []
    else
      assert xs == [xs[0]] + xs[1..];
      Insert(xs[0], Sort(xs[1..], key), key)
  }

  lemma StrictIsAscending<T(!new)>(xs: seq<T>, key: T -> Str)
    requires Strict(xs, key)
    ensures Ascending(xs, key) && Distinct(xs, key)
  {
    forall i, j | 0 <= i < j < |xs| ensures !Less(key(xs[j]), key(xs[i])) && key(xs[i]) != key(xs[j]) {
      LessIrreflexive(key(xs[i]));
      if Less(key(xs[j]), key(xs[i])) { LessTransitive(key(xs[i]), key(xs[j]), key(xs[i])); }
    }
  }

  lemma DistinctIsStrict<T(!new)>(xs: seq<T>, key: T -> Str)
    requires Ascending(xs, key) && Distinct(xs, key)
    ensures Strict(xs, key)
  {
    forall i, j | 0 <= i < j < |xs| ensures Less(key(xs[i]), key(xs[j])) {
      LessTotal(key(xs[i]), key(xs[j]));
    }
  }

  /** Reordering keeps keys distinct. */
  lemma DistinctPermutes<T(!new)>(a: seq<T>, b: seq<T>, key: T -> Str)
    requires Distinct(a, key) && multiset(a) == multiset(b)
    ensures Distinct(b, key)
  {
    forall i, j | 0 <= i < j < |b| ensures key(b[i]) != key(b[j]) {
      if key(b[i]) == key(b[j]) {
        assert b[i] in multiset(a) && b[j] in multiset(a);
        if b[i] == b[j] {
          TwoPlaces(b, i, j);
          OnePlace(a, b[i], key);
        }
      }
    }
  }

  lemma TwoPlaces<T>(b: seq<T>, i: nat, j: nat)
    requires i < j < |b| && b[i] == b[j]
    ensures multiset(b)[b[i]] >= 2
  {
    assert b == b[..j] + b[j..];
    assert b[..j][i] in multiset(b[..j]) && b[j..][0] in multiset(b[j..]);
  }

  lemma {:induction false} OnePlace<T(!new)>(a: seq<T>, x: T, key: T -> Str)
    requires Distinct(a, key)
    ensures multiset(a)[x] <= 1
  {
    if a != [] {
      assert a == [a[0]] + a[1..];
      OnePlace(a[1..], x, key);
      assert a[0] == x ==> x !in a[1..];
    }
  }

  /** A strictly ascending list is the only sorted order of its elements. */
  lemma {:induction false} StrictUnique<T(!new)>(a: seq<T>, b: seq<T>, key: T -> Str)
    requires Strict(a, key) && Ascending(b, key) && multiset(a) == multiset(b)
    ensures a == b
  {
    assert |multiset(a)| == |multiset(b)|;
    if a != [] {
      FirstAgrees(a, b, key);
      assert a == [a[0]] + a[1..] && b == [b[0]] + b[1..];
      assert multiset(a[1..]) == multiset(a) - multiset{a[0]};
      assert multiset(b[1..]) == multiset(b) - multiset{b[0]};
      StrictUnique(a[1..], b[1..], key);
    }
  }

  lemma FirstAgrees<T(!new)>(a: seq<T>, b: seq<T>, key: T -> Str)
    requires Strict(a, key) && Ascending(b, key) && multiset(a) == multiset(b)
    requires a != [] && b != []
    ensures a[0] == b[0]
  {
    assert b[0] in multiset(a) && a[0] in multiset(b);
    var i :| 0 <= i < |a| && a[i] == b[0];
    var k :| 0 <= k < |b| && b[k] == a[0];
    if i > 0 {
      assert Less(key(a[0]), key(a[i]));
      if k == 0 { LessIrreflexive(key(a[0])); }
      assert false;
    }
  }

  /** Two lists without repeats and with the same elements are permutations of each other. */
  lemma SameElements<T(!new)>(a: seq<T>, b: seq<T>, key: T -> Str)
    requires Distinct(a, key) && Distinct(b, key)
    requires forall x :: x in a <==> x in b
    ensures multiset(a) == multiset(b)
  {
    forall x ensures multiset(a)[x] == multiset(b)[x] {
      OnePlace(a, x, key);
      OnePlace(b, x, key);
      assert x in a <==> x in multiset(a);
      assert x in b <==> x in multiset(b);
    }
  }
}
