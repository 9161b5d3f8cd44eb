/** Reading `git diff --name-status -M -z` (adapters/repositories/authoring.go:168-226). */
module NameStatus {
  import opened Base

  const NUL: char := '\0'

  datatype Kind = Added | Deleted | Modified
  datatype Change = Change(path: string, kind: Kind)

  datatype Parsed = Ok(changes: seq<Change>) | NoPath(status: string)

  // --- the reader ----------------------------------------------------------------------------

  /** strings.Split on NUL: one field more than there are NULs. */
  function Split(s: string): (fields: seq<string>)
    ensures |fields| >= 1
  {
    if s == [] then [""]
    else
      var rest := Split(s[1..]);
      if s[0] == NUL then [""] + rest else [[s[0]] + rest[0]] + rest[1..]
  }

  function KindOf(status: char): Kind {
    if status == 'A' then Added else if status == 'D' then Deleted else Modified
  }

  predicate Paired(status: string) {
    status != [] && (status[0] == 'R' || status[0] == 'C')
  }

  function Prepend(changes: seq<Change>, rest: Parsed): Parsed {
    match rest
    case Ok(more) => Ok(changes + more)
    case NoPath(_) => rest
  }

  function PairChanges(status: string, from: string, to: string): seq<Change>
    requires Paired(status)
  {
    if status[0] == 'R' then [Change(to, Added), Change(from, Deleted)] else [Change(to, Added)]
  }

  function ReadFields(fields: seq<string>): Parsed {
    if fields == [] then Ok([])
    else if fields[0] == "" then ReadFields(fields[1..])
    else if Paired(fields[0]) then
      if |fields| <= 2 then NoPath(fields[0])
      else Prepend(PairChanges(fields[0], fields[1], fields[2]), ReadFields(fields[3..]))
    else if |fields| <= 1 then NoPath(fields[0])
    else Prepend([Change(fields[1], KindOf(fields[0][0]))], ReadFields(fields[2..]))
  }

  lemma PrependTwice(a: seq<Change>, b: seq<Change>, rest: Parsed)
    ensures Prepend(a, Prepend(b, rest)) == Prepend(a + b, rest)
  {
    if rest.Ok? { assert a + (b + rest.changes) == a + b + rest.changes; }
  }

  /** parseNameStatus: an index that advances by one, two or three fields. */
  method ParseNameStatus(out: string) returns (r: Parsed)
    ensures r == ReadFields(Split(out))
  {
    var fields := Split(out);
    var changes: seq<Change> := [];
    var i := 0;
    assert fields[0..] == fields;
    assert ReadFields(fields).Ok? ==> [] + ReadFields(fields).changes == ReadFields(fields).changes;
    while i < |fields|
      invariant 0 <= i <= |fields|
      invariant ReadFields(fields) == Prepend(changes, ReadFields(fields[i..]))
      decreases |fields| - i
    {
      var status := fields[i];
      ghost var left := fields[i..];
      if status == "" {
        assert left[1..] == fields[i + 1..];
        i := i + 1;
        continue;
      }
      var paired := status[0] == 'R' || status[0] == 'C';
      var want := if paired then 2 else 1;
      if i + want >= |fields| { return NoPath(status); }
      if paired {
        var from, to := fields[i + 1], fields[i + 2];
        assert left[3..] == fields[i + 3..];
        PrependTwice(changes, PairChanges(status, from, to), ReadFields(fields[i + 3..]));
        ghost var before := changes;
        changes := changes + [Change(to, Added)];
        if status[0] == 'R' { changes := changes + [Change(from, Deleted)]; }
        assert changes == before + PairChanges(status, from, to);
        i := i + 3;
        continue;
      }
      assert left[2..] == fields[i + 2..];
      PrependTwice(changes, [Change(fields[i + 1], KindOf(status[0]))], ReadFields(fields[i + 2..]));
      changes := changes + [Change(fields[i + 1], KindOf(status[0]))];
      i := i + 2;
    }
    assert changes + [] == changes;
    return Ok(changes);
  }

  // --- the printer ---------------------------------------------------------------------------

  /** What Git writes: a status and one path, or for a rename or copy a status and two. */
  datatype Record = One(status: string, path: string) | Two(status: string, from: string, to: string)

  predicate Clean(s: string) {
    forall i :: 0 <= i < |s| ==> s[i] != NUL
  }

  predicate WellFormed(r: Record) {
    match r
    case One(status, path) => status != [] && !Paired(status) && Clean(status) && Clean(path)
    case Two(status, from, to) => Paired(status) && Clean(status) && Clean(from) && Clean(to)
  }

  function Ended(s: string): string {
    s + [NUL]
  }

  function PrintOne(r: Record): string {
    match r
    case One(status, path) => Ended(status) + Ended(path)
    case Two(status, from, to) => Ended(status) + (Ended(from) + Ended(to))
  }

  function Print(records: seq<Record>): string {
    if records == [] then [] else PrintOne(records[0]) + Print(records[1..])
  }

  /** What a record says happened: R adds the new path and deletes the old, C only adds. */
  function ChangesOf(r: Record): seq<Change>
    requires WellFormed(r)
  {
    match r
    case One(status, path) => [Change(path, KindOf(status[0]))]
    case Two(status, from, to) => PairChanges(status, from, to)
  }

  function AllChanges(records: seq<Record>): seq<Change>
    requires forall r :: r in records ==> WellFormed(r)
  {
    if records == [] then [] else ChangesOf(records[0]) + AllChanges(records[1..])
  }

  // --- one undoes the other ------------------------------------------------------------------

  lemma {:induction false} SplitEnded(s: string, rest: string)
    requires Clean(s)
    ensures Split(Ended(s) + rest) == [s] + Split(rest)
  {
    var all := Ended(s) + rest;
    if s == [] {
      assert all[1..] == rest;
    } else {
      assert all[1..] == Ended(s[1..]) + rest;
      SplitEnded(s[1..], rest);
      assert s == [s[0]] + s[1..];
    }
  }

  lemma SplitRecord(r: Record, rest: string)
    requires WellFormed(r)
    ensures Split(PrintOne(r) + rest)
            == (if r.One? then [r.status, r.path] else [r.status, r.from, r.to]) + Split(rest)
  {
    match r
    case One(status, path) =>
      assert PrintOne(r) + rest == Ended(status) + (Ended(path) + rest);
      SplitEnded(status, Ended(path) + rest);
      SplitEnded(path, rest);
    case Two(status, from, to) =>
      assert PrintOne(r) + rest == Ended(status) + (Ended(from) + (Ended(to) + rest));
      SplitEnded(status, Ended(from) + (Ended(to) + rest));
      SplitEnded(from, Ended(to) + rest);
      SplitEnded(to, rest);
  }

  lemma ReadRecord(r: Record, rest: seq<string>)
    requires WellFormed(r) && rest != []
    ensures ReadFields((if r.One? then [r.status, r.path] else [r.status, r.from, r.to]) + rest)
            == Prepend(ChangesOf(r), ReadFields(rest))
  {
    if r.One? {
      assert ([r.status, r.path] + rest)[2..] == rest;
    } else {
      assert ([r.status, r.from, r.to] + rest)[3..] == rest;
    }
  }

  /** Whole records are read off the front, whatever follows them. */
  lemma {:induction false} ReadAfter(records: seq<Record>, rest: string)
    requires forall r :: r in records ==> WellFormed(r)
    ensures ReadFields(Split(Print(records) + rest)) == Prepend(AllChanges(records), ReadFields(Split(rest)))
  {
    if records == [] {
      assert Print(records) + rest == rest;
      if ReadFields(Split(rest)).Ok? {
        assert [] + ReadFields(Split(rest)).changes == ReadFields(Split(rest)).changes;
      }
    } else {
      var first, more := records[0], records[1..];
      assert Print(records) + rest == PrintOne(first) + (Print(more) + rest);
      SplitRecord(first, Print(more) + rest);
      ReadRecord(first, Split(Print(more) + rest));
      ReadAfter(more, rest);
      PrependTwice(ChangesOf(first), AllChanges(more), ReadFields(Split(rest)));
    }
  }

  lemma ReadNothing()
    ensures ReadFields(Split("")) == Ok([])
  {
    assert [""][1..] == [];
  }

  /** Whatever well-formed records Git prints, reading them back gives their changes in order. */
  lemma RoundTrip(records: seq<Record>)
    requires forall r :: r in records ==> WellFormed(r)
    ensures ReadFields(Split(Print(records))) == Ok(AllChanges(records))
  {
    ReadAfter(records, "");
    ReadNothing();
    assert Print(records) + "" == Print(records);
  }

  lemma {:induction false} SplitPlain(s: string)
    requires Clean(s)
    ensures Split(s) == [s]
  {
    if s != [] {
      SplitPlain(s[1..]);
      assert s == [s[0]] + s[1..];
    }
  }

  /** What one printed record reads as, letter by letter: A adds, D deletes, anything else with one path modifies;
      R adds the new path and deletes the old, C only adds. */
  lemma OneRecord(r: Record)
    requires WellFormed(r)
    ensures r.One? ==> ReadFields(Split(PrintOne(r)))
                       == Ok([Change(r.path, if r.status[0] == 'A' then Added
                                             else if r.status[0] == 'D' then Deleted else Modified)])
    ensures r.Two? && r.status[0] == 'R' ==>
              ReadFields(Split(PrintOne(r))) == Ok([Change(r.to, Added), Change(r.from, Deleted)])
    ensures r.Two? && r.status[0] == 'C' ==> ReadFields(Split(PrintOne(r))) == Ok([Change(r.to, Added)])
  {
    RoundTrip([r]);
    assert Print([r]) == PrintOne(r) + [] == PrintOne(r);
    assert AllChanges([r]) == ChangesOf(r) + [] == ChangesOf(r);
  }

  // --- output cut short ----------------------------------------------------------------------

  /** Reading stops in the middle of a record: how many whole records came before, and what of the next one
      was there. */
  function Whole(records: seq<Record>, n: nat): (i: nat)
    ensures i <= |records|
  {
    if records == [] || n < |PrintOne(records[0])| then 0
    else 1 + Whole(records[1..], n - |PrintOne(records[0])|)
  }

  function Begun(records: seq<Record>, n: nat): string
    requires n <= |Print(records)|
  {
    if records == [] then ""
    else if n < |PrintOne(records[0])| then PrintOne(records[0])[..n]
    else Begun(records[1..], n - |PrintOne(records[0])|)
  }

  /** The paths a record has. */
  function Paths(r: Record): nat {
    if r.One? then 1 else 2
  }

  /** What is left of a begun record past its first field, and past its second. */
  function PastOne(cut: string, s: string): string {
    if |cut| <= |s| then "" else cut[|s| + 1..]
  }

  function LastPath(r: Record, cut: string): string {
    match r
    case One(status, _) => PastOne(cut, status)
    case Two(status, from, _) => PastOne(PastOne(cut, status), from)
  }

  /** What a record cut inside its last path is taken for: the path is whatever was there of it. */
  function CutChanges(r: Record, cut: string): seq<Change>
    requires WellFormed(r)
  {
    match r
    case One(status, _) => [Change(LastPath(r, cut), KindOf(status[0]))]
    case Two(status, from, _) => PairChanges(status, from, LastPath(r, cut))
  }

  lemma {:induction false} CountClean(s: string)
    requires Clean(s)
    ensures CountNul(s) == 0
  {
    if s != [] { CountClean(s[1..]); }
  }

  /** A prefix of s, NUL and more: part of s, or s, NUL and part of the rest. */
  lemma PrefixOfEnded(cut: string, s: string, rest: string)
    requires cut <= Ended(s) + rest
    ensures if |cut| <= |s| then cut <= s else cut == Ended(s) + PastOne(cut, s) && PastOne(cut, s) <= rest
  {
    var all := Ended(s) + rest;
    assert cut == all[..|cut|];
    if |cut| > |s| {
      assert all[..|cut|] == Ended(s) + rest[..|cut| - |s| - 1];
    } else {
      assert all[..|cut|] == s[..|cut|];
    }
  }

  lemma SplitPrefix(cut: string, s: string, rest: string)
    requires Clean(s) && cut <= Ended(s) + rest
    ensures |cut| <= |s| ==> Split(cut) == [cut] && CountNul(cut) == 0
    ensures |cut| > |s| ==> Split(cut) == [s] + Split(PastOne(cut, s)) && CountNul(cut) == 1 + CountNul(PastOne(cut, s))
    ensures PastOne(cut, s) <= rest
  {
    PrefixOfEnded(cut, s, rest);
    if |cut| <= |s| {
      SplitPlain(cut);
      CountClean(cut);
    } else {
      SplitEnded(s, PastOne(cut, s));
      CountEnded(s, PastOne(cut, s));
    }
  }

  /** A proper prefix of a path and its NUL is a prefix of the path. */
  lemma SplitLast(cut: string, s: string)
    requires Clean(s) && cut < Ended(s)
    ensures Split(cut) == [cut] && CountNul(cut) == 0 && cut <= s && (cut == s <==> |cut| == |s|)
  {
    assert Ended(s) + "" == Ended(s);
    SplitPrefix(cut, s, "");
    PrefixOfEnded(cut, s, "");
  }

  /** How a begun record splits, and how many NULs it has. */
  lemma SplitBegunOne(status: string, path: string, cut: string)
    requires Clean(status) && Clean(path) && cut < Ended(status) + Ended(path)
    ensures if |cut| <= |status| then Split(cut) == [cut] && CountNul(cut) == 0
            else Split(cut) == [status, PastOne(cut, status)] && CountNul(cut) == 1
    ensures PastOne(cut, status) <= path
    ensures PastOne(cut, status) == path && |cut| > |status| <==> |cut| == |status| + 1 + |path|
  {
    SplitPrefix(cut, status, Ended(path));
    if |cut| > |status| { SplitLast(PastOne(cut, status), path); }
  }

  lemma SplitBegunTwo(status: string, from: string, to: string, cut: string)
    requires Clean(status) && Clean(from) && Clean(to) && cut < Ended(status) + (Ended(from) + Ended(to))
    ensures var rest := PastOne(cut, status);
      if |cut| <= |status| then Split(cut) == [cut] && CountNul(cut) == 0
      else if |rest| <= |from| then Split(cut) == [status, rest] && CountNul(cut) == 1
      else Split(cut) == [status, from, PastOne(rest, from)] && CountNul(cut) == 2
           && (PastOne(rest, from) == to <==> |cut| == |status| + |from| + |to| + 2)
  {
    SplitPrefix(cut, status, Ended(from) + Ended(to));
    if |cut| > |status| {
      var rest := PastOne(cut, status);
      SplitBegunOne(from, to, rest);
      if |rest| > |from| { assert [status] + [from, PastOne(rest, from)] == [status, from, PastOne(rest, from)]; }
    }
  }

  lemma ReadBare(status: string)
    requires status != []
    ensures ReadFields([status]) == NoPath(status)
  {
  }

  lemma ReadOne(status: string, path: string)
    requires status != []
    ensures ReadFields([status, path])
            == if Paired(status) then NoPath(status) else Ok([Change(path, KindOf(status[0]))])
  {
    assert [status, path][2..] == [];
  }

  lemma ReadTwo(status: string, from: string, to: string)
    requires Paired(status)
    ensures ReadFields([status, from, to]) == Ok(PairChanges(status, from, to))
  {
    assert [status, from, to][3..] == [];
  }

  /** The last record on its own: refused exactly while a path of it is not begun. */
  lemma ReadBegun(r: Record, cut: string)
    requires WellFormed(r) && cut < PrintOne(r) && cut != []
    ensures ReadFields(Split(cut)).NoPath? <==> CountNul(cut) < Paths(r)
    ensures CountNul(cut) >= Paths(r) ==> ReadFields(Split(cut)) == Ok(CutChanges(r, cut))
  {
    match r
    case One(status, path) =>
      SplitBegunOne(status, path, cut);
      if |cut| <= |status| { ReadBare(cut); } else { ReadOne(status, PastOne(cut, status)); }
    case Two(status, from, to) =>
      SplitBegunTwo(status, from, to, cut);
      var rest := PastOne(cut, status);
      if |cut| <= |status| {
        ReadBare(cut);
      } else if |rest| <= |from| {
        ReadOne(status, rest);
      } else {
        ReadTwo(status, from, PastOne(rest, from));
      }
  }

  lemma PrintFirst(records: seq<Record>, i: nat)
    requires i < |records|
    ensures Print(records[..i + 1]) == PrintOne(records[0]) + Print(records[1..][..i])
  {
    assert records[..i + 1][1..] == records[1..][..i];
  }

  lemma CutPast(first: string, rest: string, n: nat, whole: string, cut: string)
    requires |first| <= n <= |first + rest| && rest[..n - |first|] == whole + cut
    ensures (first + rest)[..n] == first + whole + cut
  {
    assert (first + rest)[..n] == first + rest[..n - |first|];
    assert first + (whole + cut) == first + whole + cut;
  }

  /** The first n characters are some whole records, and a proper part of the next or nothing. */
  predicate FallsAt(records: seq<Record>, n: nat, i: nat, cut: string) {
    n <= |Print(records)| && i <= |records| && Print(records)[..n] == Print(records[..i]) + cut
    && (cut != [] ==> i < |records| && cut < PrintOne(records[i]))
  }

  lemma FallsInFirst(records: seq<Record>, n: nat)
    requires records != [] && n < |PrintOne(records[0])|
    ensures FallsAt(records, n, 0, PrintOne(records[0])[..n])
  {
    var first := PrintOne(records[0]);
    assert Print(records) == first + Print(records[1..]);
    assert (first + Print(records[1..]))[..n] == first[..n];
    assert Print(records[..0]) + first[..n] == first[..n];
  }

  lemma FallsLater(records: seq<Record>, n: nat, i: nat, cut: string)
    requires records != [] && |PrintOne(records[0])| <= n
    requires FallsAt(records[1..], n - |PrintOne(records[0])|, i, cut)
    ensures FallsAt(records, n, i + 1, cut)
  {
    var first, more := PrintOne(records[0]), records[1..];
    assert Print(records) == first + Print(more);
    CutPast(first, Print(more), n, Print(more[..i]), cut);
    PrintFirst(records, i);
  }

  lemma {:induction false} CutFalls(records: seq<Record>, n: nat)
    requires n <= |Print(records)|
    ensures FallsAt(records, n, Whole(records, n), Begun(records, n))
  {
    if records != [] {
      var first := |PrintOne(records[0])|;
      if n < first {
        FallsInFirst(records, n);
      } else {
        CutFalls(records[1..], n - first);
        FallsLater(records, n, Whole(records[1..], n - first), Begun(records[1..], n - first));
      }
    }
  }

  /** Git's output cut off anywhere. It is refused exactly when it ends inside a record of which some path
      was not even begun: with fewer NULs than the record has paths. Otherwise it is accepted, and what comes
      out is every whole record before, then the last one with its last path cut where the output was. */
  lemma CutAnywhere(records: seq<Record>, n: nat)
    requires (forall r :: r in records ==> WellFormed(r)) && n <= |Print(records)|
    ensures var i, cut := Whole(records, n), Begun(records, n);
      var out := ReadFields(Split(Print(records)[..n]));
      && FallsAt(records, n, i, cut)
      && (out.NoPath? <==> cut != [] && CountNul(cut) < Paths(records[i]))
      && (out.Ok? ==> out == Ok(AllChanges(records[..i]) + if cut == [] then [] else CutChanges(records[i], cut)))
  {
    var i, cut := Whole(records, n), Begun(records, n);
    CutFalls(records, n);
    ReadAfter(records[..i], cut);
    if cut == [] { ReadNothing(); } else { ReadBegun(records[i], cut); }
  }

  /** An accepted cut says what the record says exactly when nothing but the last NUL is missing: cut any
      earlier, the path it names is not the record's. */
  lemma CutTellsTruth(r: Record, cut: string)
    requires WellFormed(r) && cut < PrintOne(r) && CountNul(cut) >= Paths(r)
    ensures CutChanges(r, cut) == ChangesOf(r) <==> |cut| == |PrintOne(r)| - 1
  {
    match r
    case One(status, path) => SplitBegunOne(status, path, cut);
    case Two(status, from, to) =>
      SplitBegunTwo(status, from, to, cut);
      assert CutChanges(r, cut)[0].path == LastPath(r, cut) && ChangesOf(r)[0].path == to;
  }

  // --- counting ------------------------------------------------------------------------------

  /** countNulTerminated. */
  function CountNul(s: string): nat {
    if s == [] then 0 else (if s[0] == NUL then 1 else 0) + CountNul(s[1..])
  }

  function PrintList(paths: seq<string>): string {
    if paths == [] then [] else Ended(paths[0]) + PrintList(paths[1..])
  }

  lemma {:induction false} CountEnded(s: string, rest: string)
    requires Clean(s)
    ensures CountNul(Ended(s) + rest) == 1 + CountNul(rest)
  {
    var all := Ended(s) + rest;
    if s == [] {
      assert all[1..] == rest;
    } else {
      assert all[1..] == Ended(s[1..]) + rest;
      CountEnded(s[1..], rest);
    }
  }

  /** Counting terminators counts records, the empty list included. */
  lemma {:induction false} CountsRecords(paths: seq<string>)
    requires forall p :: p in paths ==> Clean(p)
    ensures CountNul(PrintList(paths)) == |paths|
  {
    if paths != [] {
      CountEnded(paths[0], PrintList(paths[1..]));
      CountsRecords(paths[1..]);
    }
  }
}
