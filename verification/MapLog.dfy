/** Moments make a log: if every call has one state at which it finds its result, and the table changes only by
    the writes of calls at their moments, then the calls, sorted by moment, form a sequential log. */
module MapLog {
  import opened Basics
  import opened MapSpec
  import opened MapMachine

  /** One entry of a sequential log: a call, and what the table gave it. */
  datatype Event = Event(c: CallId, r: Option<Cell>)

  /** Performing the calls of the log one after the other on a plain table, each finding exactly its recorded
      result, leads from table `t` to table `u`. */
  ghost predicate Replays(calls: seq<Call>, log: seq<Event>, t: Table, u: Table)
    decreases |log|
  {
    if log == [] then t == u
    else
      var last := log[|log| - 1];
      && last.c < |calls|
      && exists m: Table :: Replays(calls, log[..|log| - 1], t, m) && Performs(calls[last.c], last, m, u)
  }

  ghost predicate Performs(call: Call, e: Event, m: Table, u: Table) {
    && !call.kind.Range?
    && e.r == Get(m, call.key)
    && u == Apply(call.kind, call.key, call.val, e.c, m)
  }

  /** The tables of a run, the writer of each action, and the moment of every call that belongs in the log. */
  datatype Timeline = Timeline(
    maps: seq<Table>, writer: seq<Option<CallId>>, calls: seq<Call>, moment: map<CallId, nat>, writes: set<CallId>)

  ghost predicate Consistent(tl: Timeline) {
    && |tl.maps| == |tl.writer| + 1
    && tl.maps[0] == map[]
    && (forall c :: c in tl.moment ==>
          c < |tl.calls| && !tl.calls[c].kind.Range? && tl.moment[c] < |tl.maps|)
    && (forall c :: c in tl.moment && c !in tl.writes ==> !Writes(tl.calls[c].kind, Result(tl, c)))
    && (forall c :: c in tl.moment && c in tl.writes ==>
          tl.moment[c] < |tl.writer| && tl.writer[tl.moment[c]] == Some(c))
    && (forall i :: 0 <= i < |tl.writer| ==> StepOk(tl, i))
  }

  ghost predicate StepOk(tl: Timeline, i: nat)
    requires i < |tl.writer| && |tl.maps| == |tl.writer| + 1
  {
    match tl.writer[i]
    case None => tl.maps[i + 1] == tl.maps[i]
    case Some(c) =>
      && c in tl.moment && c in tl.writes && c < |tl.calls| && tl.moment[c] == i
      && tl.maps[i + 1] == Apply(tl.calls[c].kind, tl.calls[c].key, tl.calls[c].val, c, tl.maps[i])
  }

  ghost function Result(tl: Timeline, c: CallId): Option<Cell>
    requires c in tl.moment && c < |tl.calls| && tl.moment[c] < |tl.maps|
  {
    Get(tl.maps[tl.moment[c]], tl.calls[c].key)
  }

  ghost function EventOf(tl: Timeline, c: CallId): Event
    requires c in tl.moment && c < |tl.calls| && tl.moment[c] < |tl.maps|
  {
    Event(c, Result(tl, c))
  }

  // ----- building the log

  predicate ReadsHere(tl: Timeline, i: nat, c: CallId) {
    c in tl.moment && c !in tl.writes && tl.moment[c] == i
  }

  /** The reads at state `i` among the first `n` calls. */
  ghost function ReadsAt(tl: Timeline, i: nat, n: nat): seq<Event>
    requires Consistent(tl)
  {
    if n == 0 then []
    else ReadsAt(tl, i, n - 1) + if ReadsHere(tl, i, n - 1) then [EventOf(tl, n - 1)] else []
  }

  ghost function WriteAt(tl: Timeline, i: nat): seq<Event>
    requires Consistent(tl) && i < |tl.writer|
  {
    assert StepOk(tl, i);
    if tl.writer[i].Some? then [EventOf(tl, tl.writer[i].value)] else []
  }

  /** The reads at a state come before the write that leaves it. */
  ghost function LogTo(tl: Timeline, n: nat): seq<Event>
    requires Consistent(tl) && n < |tl.maps|
  {
    if n == 0 then []
    else LogTo(tl, n - 1) + ReadsAt(tl, n - 1, |tl.calls|) + WriteAt(tl, n - 1)
  }

  ghost function Log(tl: Timeline): seq<Event>
    requires Consistent(tl)
  {
    LogTo(tl, |tl.writer|) + ReadsAt(tl, |tl.writer|, |tl.calls|)
  }

  // ----- the log is legal

  lemma {:induction false} ReplayMore(calls: seq<Call>, log: seq<Event>, t: Table, m: Table, e: Event, u: Table)
    requires Replays(calls, log, t, m) && e.c < |calls| && Performs(calls[e.c], e, m, u)
    ensures Replays(calls, log + [e], t, u)
  {
    assert (log + [e])[..|log + [e]| - 1] == log;
  }

  lemma {:induction false} ReplayReads(tl: Timeline, log: seq<Event>, i: nat, n: nat)
    requires Consistent(tl) && i < |tl.maps|
    requires Replays(tl.calls, log, map[], tl.maps[i])
    ensures Replays(tl.calls, log + ReadsAt(tl, i, n), map[], tl.maps[i])
  {
    if n == 0 {
      assert log + ReadsAt(tl, i, n) == log;
    } else {
      ReplayReads(tl, log, i, n - 1);
      if ReadsHere(tl, i, n - 1) {
        ReplayMore(tl.calls, log + ReadsAt(tl, i, n - 1), map[], tl.maps[i], EventOf(tl, n - 1), tl.maps[i]);
        assert log + ReadsAt(tl, i, n) == log + ReadsAt(tl, i, n - 1) + [EventOf(tl, n - 1)];
      } else {
        assert ReadsAt(tl, i, n) == ReadsAt(tl, i, n - 1);
      }
    }
  }

  lemma {:induction false} ReplayLog(tl: Timeline, n: nat)
    requires Consistent(tl) && n < |tl.maps|
    ensures Replays(tl.calls, LogTo(tl, n), map[], tl.maps[n])
  {
    if n > 0 {
      var before := LogTo(tl, n - 1) + ReadsAt(tl, n - 1, |tl.calls|);
      ReplayLog(tl, n - 1);
      ReplayReads(tl, LogTo(tl, n - 1), n - 1, |tl.calls|);
      assert StepOk(tl, n - 1);
      if tl.writer[n - 1].Some? {
        ReplayMore(tl.calls, before, map[], tl.maps[n - 1], EventOf(tl, tl.writer[n - 1].value), tl.maps[n]);
      } else {
        assert LogTo(tl, n) == before;
      }
    }
  }

  // ----- the log is in order

  /** By moment, reads before the write at the same state, and reads by call number. */
  predicate Before(tl: Timeline, c: CallId, d: CallId) {
    && c in tl.moment && d in tl.moment
    && (|| tl.moment[c] < tl.moment[d]
        || (tl.moment[c] == tl.moment[d] && c !in tl.writes && (d in tl.writes || c < d)))
  }

  ghost predicate InOrder(tl: Timeline, log: seq<Event>) {
    forall i, j :: 0 <= i < j < |log| ==> Before(tl, log[i].c, log[j].c)
  }

  lemma {:induction false} OrderJoins(tl: Timeline, log: seq<Event>, more: seq<Event>)
    requires InOrder(tl, log) && InOrder(tl, more)
    requires forall e, f :: e in log && f in more ==> Before(tl, e.c, f.c)
    ensures InOrder(tl, log + more)
  {
    var all := log + more;
    forall i, j | 0 <= i < j < |all| ensures Before(tl, all[i].c, all[j].c) {
      if i < |log| <= j {
        assert log[i] in log && more[j - |log|] in more;
      }
    }
  }

  function Earlier(tl: Timeline, n: nat): CallId -> bool {
    (c: CallId) => c in tl.moment && tl.moment[c] < n
  }

  function Reading(tl: Timeline, i: nat, n: nat): CallId -> bool {
    (c: CallId) => c < n && ReadsHere(tl, i, c)
  }

  function Writing(tl: Timeline, i: nat): CallId -> bool {
    (c: CallId) => c in tl.moment && c in tl.writes && tl.moment[c] == i
  }

  function EarlierOrReading(tl: Timeline, i: nat): CallId -> bool {
    (c: CallId) => c in tl.moment && (tl.moment[c] < i || ReadsHere(tl, i, c))
  }

  /** The parts of the log up to and including state `i`: what each has, and that they follow each other. */
  lemma {:induction false} PartsApart(tl: Timeline, i: nat)
    requires forall c :: c in tl.moment ==> c < |tl.calls|
    ensures Follows(tl, Earlier(tl, i), Reading(tl, i, |tl.calls|), EarlierOrReading(tl, i))
    ensures Follows(tl, EarlierOrReading(tl, i), Writing(tl, i), Earlier(tl, i + 1))
  {
  }

  /** The calls of `r` are those of `p` and then those of `q`. */
  ghost predicate Follows(tl: Timeline, p: CallId -> bool, q: CallId -> bool, r: CallId -> bool) {
    && (forall c :: c in tl.moment ==> (r(c) <==> p(c) || q(c)))
    && (forall c, d :: c in tl.moment && p(c) && d in tl.moment && q(d) ==> Before(tl, c, d))
  }

  /** Exactly the calls of the timeline that satisfy `p`, each with its result, are in the log. */
  ghost predicate Has(tl: Timeline, log: seq<Event>, p: CallId -> bool)
    requires Consistent(tl)
  {
    && (forall e :: e in log ==> e.c in tl.moment && p(e.c) && e == EventOf(tl, e.c))
    && (forall c :: c in tl.moment && p(c) ==> EventOf(tl, c) in log)
  }

  /** Joining a part of the log with a later part. */
  lemma {:induction false} PartsJoin(tl: Timeline, log: seq<Event>, more: seq<Event>,
                                     p: CallId -> bool, q: CallId -> bool, r: CallId -> bool)
    requires Consistent(tl) && InOrder(tl, log) && InOrder(tl, more)
    requires Has(tl, log, p) && Has(tl, more, q)
    requires Follows(tl, p, q, r)
    ensures InOrder(tl, log + more) && Has(tl, log + more, r)
  {
    OrderJoins(tl, log, more);
  }

  function Only(c: CallId): CallId -> bool {
    (d: CallId) => d == c
  }

  lemma {:induction false} ReadsInOrder(tl: Timeline, i: nat, n: nat)
    requires Consistent(tl)
    ensures InOrder(tl, ReadsAt(tl, i, n))
    ensures Has(tl, ReadsAt(tl, i, n), Reading(tl, i, n))
  {
    if n > 0 {
      ReadsInOrder(tl, i, n - 1);
      if ReadsHere(tl, i, n - 1) {
        PartsJoin(tl, ReadsAt(tl, i, n - 1), [EventOf(tl, n - 1)], Reading(tl, i, n - 1), Only(n - 1),
                  Reading(tl, i, n));
      }
    }
  }

  lemma {:induction false} WriteInOrder(tl: Timeline, i: nat)
    requires Consistent(tl) && i < |tl.writer|
    ensures InOrder(tl, WriteAt(tl, i))
    ensures Has(tl, WriteAt(tl, i), Writing(tl, i))
  {
    assert StepOk(tl, i);
  }

  /** The log of one more state: its readers and its writer after all before. */
  lemma {:induction false} StateJoins(tl: Timeline, i: nat, earlier: seq<Event>)
    requires Consistent(tl) && i < |tl.writer| && InOrder(tl, earlier) && Has(tl, earlier, Earlier(tl, i))
    ensures var log := earlier + ReadsAt(tl, i, |tl.calls|) + WriteAt(tl, i);
            InOrder(tl, log) && Has(tl, log, Earlier(tl, i + 1))
  {
    var n := |tl.calls|;
    ReadsInOrder(tl, i, n);
    WriteInOrder(tl, i);
    PartsApart(tl, i);
    PartsJoin(tl, earlier, ReadsAt(tl, i, n), Earlier(tl, i), Reading(tl, i, n), EarlierOrReading(tl, i));
    PartsJoin(tl, earlier + ReadsAt(tl, i, n), WriteAt(tl, i), EarlierOrReading(tl, i), Writing(tl, i),
              Earlier(tl, i + 1));
  }

  lemma {:induction false} LogToInOrder(tl: Timeline, n: nat)
    requires Consistent(tl) && n < |tl.maps|
    ensures InOrder(tl, LogTo(tl, n))
    ensures Has(tl, LogTo(tl, n), Earlier(tl, n))
  {
    if n > 0 {
      LogToInOrder(tl, n - 1);
      StateJoins(tl, n - 1, LogTo(tl, n - 1));
    }
  }

  lemma {:induction false} LogInOrder(tl: Timeline)
    requires Consistent(tl)
    ensures InOrder(tl, Log(tl))
    ensures Has(tl, Log(tl), (c: CallId) => true)
    ensures Replays(tl.calls, Log(tl), map[], tl.maps[|tl.writer|])
  {
    var n := |tl.writer|;
    LogToInOrder(tl, n);
    ReadsInOrder(tl, n, |tl.calls|);
    PartsApart(tl, n);
    PartsJoin(tl, LogTo(tl, n), ReadsAt(tl, n, |tl.calls|), Earlier(tl, n), Reading(tl, n, |tl.calls|),
              EarlierOrReading(tl, n));
    ReplayLog(tl, n);
    ReplayReads(tl, LogTo(tl, n), n, |tl.calls|);
  }
}
