/** The concurrent map is linearizable, and what follows from that and from its invariant. */
module MapTheorems {
  import opened Basics
  import opened MapSpec
  import opened MapMachine
  import opened MapInvariant
  import opened MapHistory
  import opened MapRuns
  import opened MapLog

  /** After some prefix of the schedule call `c` has returned and call `d` has not yet been made. */
  ghost predicate Precedes(acts: seq<Action>, c: CallId, d: CallId) {
    exists i :: 0 <= i <= |acts|
      && c < |Run(acts[..i]).calls| <= d && Returned(Run(acts[..i]).calls[c].pc)
  }

  ghost predicate Distinct(log: seq<Event>) {
    forall i, j :: 0 <= i < j < |log| ==> log[i].c != log[j].c
  }

  ghost predicate RespectsTime(acts: seq<Action>, log: seq<Event>) {
    forall i, j :: 0 <= i < j < |log| ==> !Precedes(acts, log[j].c, log[i].c)
  }

  /** Every call that has returned is in the log with the result it returned. */
  ghost predicate Answered(calls: seq<Call>, log: seq<Event>) {
    forall c :: 0 <= c < |calls| && calls[c].pc.Done? ==> Event(c, calls[c].pc.r) in log
  }

  /** The calls of the run are the calls that were made, in order, with their keys and values. */
  ghost predicate AsMade(calls: seq<Call>, made: seq<Request>) {
    && |calls| == |made|
    && forall c :: 0 <= c < |calls| ==>
         calls[c].kind == made[c].kind && calls[c].key == made[c].key && calls[c].val == made[c].val
  }

  ghost predicate Linearizes(acts: seq<Action>, log: seq<Event>) {
    && AsMade(Run(acts).calls, Made(acts))
    && Replays(Run(acts).calls, log, map[], Abs(Run(acts)))
    && Distinct(log)
    && RespectsTime(acts, log)
    && Answered(Run(acts).calls, log)
  }

  // ----- the calls of a run

  /** From `s` to `t` no call but `c` has changed, and that only by moving on. */
  ghost predicate OnlyMoves(s: State, t: State, c: CallId) {
    c < |s.calls| == |t.calls| && t.calls == s.calls[c := s.calls[c].(pc := t.calls[c].pc)]
  }

  lemma {:induction false} LockedMoves(s: State, c: CallId, pick: Key)
    requires c < |s.calls| && HoldsLock(s.calls[c].pc) && !s.calls[c].pc.Try? && !s.calls[c].pc.TryCas?
    ensures OnlyMoves(s, StepCall(s, c, pick), c)
  {
    match s.calls[c].pc
    case Unexpunge(e) => assert StepCall(s, c, pick) == DoUnexpunge(s, c, e);
    case Relink(e) => assert StepCall(s, c, pick) == DoRelink(s, c, e);
    case MissLookup => assert StepCall(s, c, pick) == DoMissLookup(s, c);
    case DirtyLoop(todo) => assert StepCall(s, c, pick) == DoDirtyLoop(s, c, todo, pick);
    case DirtyProbe(todo, j) => assert StepCall(s, c, pick) == DoDirtyProbe(s, c, todo, j);
    case DirtyCas(todo, j) => assert StepCall(s, c, pick) == DoDirtyCas(s, c, todo, j);
    case Unlock(after) => assert StepCall(s, c, pick) == DoUnlock(s, c, after);
    case _ =>
  }

  lemma {:induction false} FreeMoves(s: State, c: CallId, pick: Key)
    requires c < |s.calls| && !HoldsLock(s.calls[c].pc) && !s.calls[c].pc.Try? && !s.calls[c].pc.TryCas?
    ensures OnlyMoves(s, StepCall(s, c, pick), c)
  {
  }

  lemma {:induction false} EntryMoves(s: State, c: CallId, pick: Key)
    requires c < |s.calls| && (s.calls[c].pc.Try? || s.calls[c].pc.TryCas?)
    ensures OnlyMoves(s, StepCall(s, c, pick), c)
  {
  }

  lemma {:induction false} StepMoves(s: State, c: CallId, pick: Key)
    requires c < |s.calls|
    ensures OnlyMoves(s, StepCall(s, c, pick), c)
  {
    if s.calls[c].pc.Try? || s.calls[c].pc.TryCas? { EntryMoves(s, c, pick); }
    else if HoldsLock(s.calls[c].pc) { LockedMoves(s, c, pick); }
    else { FreeMoves(s, c, pick); }
  }

  /** A call never turns into another. */
  lemma {:induction false} CallsAreAsMade(acts: seq<Action>)
    ensures AsMade(Run(acts).calls, Made(acts))
  {
    if acts != [] {
      var front := acts[..|acts| - 1];
      CallsAreAsMade(front);
      match acts[|acts| - 1]
      case Invoke(_, _, _) =>
      case Step(c, pick) => if c < |Run(front).calls| { StepMoves(Run(front), c, pick); }
    }
  }

  // ----- the moments of a run

  ghost predicate ReadAt(h: History, call: Call, c: CallId, i: nat) {
    && call.pc.Done? && c in h.end && c < |h.start|
    && h.start[c] <= i < h.end[c] && i < |h.maps|
    && Get(h.maps[i], call.key) == call.pc.r
  }

  lemma {:induction false} ReadHasMoment(h: History, s: State, c: CallId) returns (i: nat)
    requires c < |s.calls| == |h.start| && Told(h, s, c) && s.calls[c].pc.Done? && c !in h.lin
    ensures ReadAt(h, s.calls[c], c, i) && !Writes(s.calls[c].kind, s.calls[c].pc.r)
  {
    i :| h.start[c] <= i < h.end[c] && i < |h.maps| && Get(h.maps[i], s.calls[c].key) == s.calls[c].pc.r;
  }

  /** Calls that belong in the log: those that have changed the table, and those that have returned. */
  ghost predicate Logged(h: History, calls: seq<Call>, c: CallId) {
    c < |calls| && (c in h.lin || calls[c].pc.Done?)
  }

  ghost predicate MomentOk(h: History, calls: seq<Call>, c: CallId, i: nat) {
    && Logged(h, calls, c)
    && (if c in h.lin then i == h.lin[c] else ReadAt(h, calls[c], c, i))
  }

  lemma {:induction false} MomentExists(h: History, s: State, c: CallId)
    requires HInv(h, s) && Logged(h, s.calls, c)
    ensures exists i: nat :: MomentOk(h, s.calls, c, i)
  {
    assert Told(h, s, c);
    if c !in h.lin {
      var i := ReadHasMoment(h, s, c);
      assert MomentOk(h, s.calls, c, i);
    } else {
      assert MomentOk(h, s.calls, c, h.lin[c]);
    }
  }

  lemma {:induction false} Moments(h: History, s: State, n: nat) returns (moment: map<CallId, nat>)
    requires HInv(h, s) && n <= |s.calls|
    ensures forall c: CallId :: c in moment <==> c < n && Logged(h, s.calls, c)
    ensures forall c: CallId :: c in moment ==> MomentOk(h, s.calls, c, moment[c])
  {
    if n == 0 {
      moment := map[];
    } else {
      moment := Moments(h, s, n - 1);
      if Logged(h, s.calls, n - 1) {
        MomentExists(h, s, n - 1);
        var i: nat :| MomentOk(h, s.calls, n - 1, i);
        moment := moment[n - 1 := i];
      }
    }
  }

  /** Moment `i` of call `c` lies in its interval, and explains what it has written or returned. */
  ghost predicate MomentFits(h: History, s: State, c: CallId, i: nat) {
    && c < |s.calls| && c < |h.start| && i < |h.maps| && !s.calls[c].kind.Range? && h.start[c] <= i
    && (c in h.lin ==> i < |h.writer| && h.writer[i] == Some(c))
    && (c in h.end ==> i < h.end[c])
    && (s.calls[c].pc.Done? ==> Get(h.maps[i], s.calls[c].key) == s.calls[c].pc.r)
    && (c !in h.lin ==> !Writes(s.calls[c].kind, Get(h.maps[i], s.calls[c].key)))
  }

  lemma {:induction false} MomentSound(h: History, s: State, c: CallId, i: nat)
    requires LogOk(h, s) && c < |s.calls| && Local(s, c) && Told(h, s, c) && MomentOk(h, s.calls, c, i)
    requires c in h.end ==> Returned(s.calls[c].pc)
    ensures MomentFits(h, s, c, i)
  {
    if c in h.lin { assert TakesEffect(h, s.calls, c); }
  }

  ghost predicate MomentsSound(h: History, s: State, moment: map<CallId, nat>) {
    && |h.start| == |s.calls|
    && forall c :: c in moment ==> c < |s.calls| && c < |h.start| && h.start[c] <= moment[c]
                                   && (c in h.end ==> moment[c] < h.end[c])
  }

  lemma {:induction false} WriterStepOk(h: History, s: State, tl: Timeline, i: nat)
    requires LogOk(h, s) && tl == Timeline(h.maps, h.writer, s.calls, tl.moment, h.lin.Keys) && i < |h.writer|
    requires h.writer[i].Some? ==> h.writer[i].value in tl.moment && tl.moment[h.writer[i].value] == i
    ensures StepOk(tl, i)
  {
    if h.writer[i].Some? { assert TakesEffect(h, s.calls, h.writer[i].value); }
  }

  /** The moments of a run form a timeline of it. */
  lemma {:induction false} RunTimeline(h: History, s: State) returns (tl: Timeline)
    requires HInv(h, s) && Inv(s)
    ensures Consistent(tl) && tl.calls == s.calls && tl.maps[|tl.writer|] == Abs(s)
    ensures MomentsSound(h, s, tl.moment)
    ensures forall c: CallId :: c < |s.calls| && s.calls[c].pc.Done? ==>
              c in tl.moment && Result(tl, c) == s.calls[c].pc.r
  {
    var moment := Moments(h, s, |s.calls|);
    tl := Timeline(h.maps, h.writer, s.calls, moment, h.lin.Keys);
    forall c | c in moment ensures MomentFits(h, s, c, moment[c]) {
      assert Local(s, c) && Told(h, s, c);
      MomentSound(h, s, c, moment[c]);
    }
    forall i | 0 <= i < |h.writer| ensures StepOk(tl, i) {
      WriterStepOk(h, s, tl, i);
    }
  }

  /** A log sorted by moment respects real time. */
  lemma {:induction false} OrderRespectsTime(acts: seq<Action>, tl: Timeline, log: seq<Event>)
    requires InOrder(tl, log)
    requires MomentsSound(RunHistory(acts), Run(acts), tl.moment)
    ensures Distinct(log) && RespectsTime(acts, log)
  {
    forall i, j | 0 <= i < j < |log| ensures !Precedes(acts, log[j].c, log[i].c) {
      var d, c := log[i].c, log[j].c;
      assert Before(tl, d, c);
      if Precedes(acts, c, d) {
        var k :| 0 <= k <= |acts|
          && c < |Run(acts[..k]).calls| <= d && Returned(Run(acts[..k]).calls[c].pc);
        BeganAfter(acts, k, d);
        EndedBy(acts, k, c);
        assert false;
      }
    }
  }

  /** Linearizability: for every schedule of any number of Load, Swap, LoadOrStore, LoadAndDelete,
      CompareAndSwap, CompareAndDelete and Range calls, the calls of the run are those that were made, and there is a
      sequential log of the plain table that explains every returned result, respects real time, and ends in the
      table the map now holds. */
  lemma {:induction false} Linearizable(acts: seq<Action>)
    ensures exists log :: Linearizes(acts, log)
  {
    RunTells(acts);
    var h, s := RunHistory(acts), Run(acts);
    var tl := RunTimeline(h, s);
    var log := Log(tl);
    LogInOrder(tl);
    OrderRespectsTime(acts, tl, log);
    forall c: CallId | c < |s.calls| && s.calls[c].pc.Done? ensures Event(c, s.calls[c].pc.r) in log {
      assert EventOf(tl, c) in log;
    }
    CallsAreAsMade(acts);
    assert Linearizes(acts, log);
  }
}
