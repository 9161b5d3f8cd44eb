/** The session journal: every event takes the next number of its session (packages/coordinator/
    orchestration.go:459-473, storage/queries/events.sql). */
module Journal {

  datatype Event<B> = Event(session: nat, seqno: nat, body: B)

  /** last is session_sequences: the last number handed out, absent before the first. */
  datatype Log<B> = Log(events: seq<Event<B>>, last: map<nat, nat>)

  function Last<B>(log: Log<B>, session: nat): nat {
    if session in log.last then log.last[session] else 0
  }

  function Append<B>(log: Log<B>, session: nat, body: B): Log<B> {
    var n := Last(log, session) + 1;
    Log(log.events + [Event(session, n, body)], log.last[session := n])
  }

  function AppendAll<B>(log: Log<B>, session: nat, bodies: seq<B>): Log<B> {
    if bodies == [] then log
    else Append(AppendAll(log, session, bodies[..|bodies| - 1]), session, bodies[|bodies| - 1])
  }

  /** How many events a session has. */
  function Length<B>(events: seq<Event<B>>, session: nat): nat {
    if events == [] then 0
    else Length(events[..|events| - 1], session) + (if events[|events| - 1].session == session then 1 else 0)
  }

  /** Each event is numbered by its place in its own session, and `last` is the number of the last. */
  ghost predicate Numbered<B>(log: Log<B>) {
    && (forall i :: 0 <= i < |log.events| ==>
         log.events[i].seqno == Length(log.events[..i], log.events[i].session) + 1)
    && (forall s: nat :: Last(log, s) == Length(log.events, s))
  }

  lemma LengthAppend<B>(events: seq<Event<B>>, e: Event<B>, s: nat)
    ensures Length(events + [e], s) == Length(events, s) + (if e.session == s then 1 else 0)
  {
    assert (events + [e])[..|events|] == events;
  }

  lemma AppendNumbered<B>(log: Log<B>, session: nat, body: B)
    requires Numbered(log)
    ensures Numbered(Append(log, session, body))
  {
    var out := Append(log, session, body);
    var e := out.events[|log.events|];
    forall i | 0 <= i < |out.events| ensures out.events[i].seqno == Length(out.events[..i], out.events[i].session) + 1 {
      if i < |log.events| {
        assert out.events[..i] == log.events[..i];
      } else {
        assert out.events[..i] == log.events;
      }
    }
    forall s: nat ensures Last(out, s) == Length(out.events, s) {
      LengthAppend(log.events, e, s);
    }
  }

  lemma {:induction false} AppendAllNumbered<B>(log: Log<B>, session: nat, bodies: seq<B>)
    requires Numbered(log)
    ensures Numbered(AppendAll(log, session, bodies))
  {
    if bodies != [] {
      AppendAllNumbered(log, session, bodies[..|bodies| - 1]);
      AppendNumbered(AppendAll(log, session, bodies[..|bodies| - 1]), session, bodies[|bodies| - 1]);
    }
  }

  lemma {:induction false} LengthGrows<B>(events: seq<Event<B>>, i: nat, s: nat)
    requires i <= |events|
    ensures Length(events[..i], s) <= Length(events, s)
  {
    if i < |events| {
      var n := |events| - 1;
      assert events[..n][..i] == events[..i];
      LengthGrows(events[..n], i, s);
    } else {
      assert events[..i] == events;
    }
  }

  /** Within a session the numbers strictly increase. */
  lemma SequencesIncrease<B>(log: Log<B>, i: nat, j: nat)
    requires Numbered(log) && i < j < |log.events| && log.events[i].session == log.events[j].session
    ensures log.events[i].seqno < log.events[j].seqno
  {
    var s := log.events[i].session;
    assert log.events[..j][..i + 1] == log.events[..i + 1];
    LengthGrows(log.events[..j], i + 1, s);
    assert log.events[..i + 1][..i] == log.events[..i];
  }

  /** And they leave no gap: every number up to the last is some event's. */
  lemma {:induction false} SequencesComplete<B>(log: Log<B>, session: nat, n: nat, upto: nat) returns (i: nat)
    requires Numbered(log) && upto <= |log.events| && 1 <= n <= Length(log.events[..upto], session)
    ensures i < upto && log.events[i].session == session && log.events[i].seqno == n
  {
    assert log.events[..upto][..upto - 1] == log.events[..upto - 1];
    if n <= Length(log.events[..upto - 1], session) {
      i := SequencesComplete(log, session, n, upto - 1);
    } else {
      i := upto - 1;
    }
  }

  // --- how often something was told ----------------------------------------------------------

  function Told<B>(events: seq<Event<B>>): multiset<B> {
    if events == [] then multiset{} else Told(events[..|events| - 1]) + multiset{events[|events| - 1].body}
  }

  lemma ToldAppend<B>(log: Log<B>, session: nat, body: B)
    ensures Told(Append(log, session, body).events) == Told(log.events) + multiset{body}
  {
    assert Append(log, session, body).events[..|log.events|] == log.events;
  }

  lemma {:induction false} ToldAppendAll<B>(log: Log<B>, session: nat, bodies: seq<B>)
    ensures Told(AppendAll(log, session, bodies).events) == Told(log.events) + multiset(bodies)
  {
    if bodies != [] {
      var n := |bodies| - 1;
      var before := AppendAll(log, session, bodies[..n]);
      ToldAppendAll(log, session, bodies[..n]);
      ToldAppend(before, session, bodies[n]);
      Snoc(bodies);
    }
  }

  lemma Snoc<B>(bodies: seq<B>)
    requires bodies != []
    ensures multiset(bodies) == multiset(bodies[..|bodies| - 1]) + multiset{bodies[|bodies| - 1]}
  {
    assert bodies == bodies[..|bodies| - 1] + [bodies[|bodies| - 1]];
  }

  lemma {:induction false} AppendAllKeeps<B>(log: Log<B>, session: nat, bodies: seq<B>)
    ensures log.events <= AppendAll(log, session, bodies).events
  {
    if bodies != [] { AppendAllKeeps(log, session, bodies[..|bodies| - 1]); }
  }
}
