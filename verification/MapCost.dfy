/** The amortized cost of copying: over every schedule, the entries scanned while `dirty` is rebuilt are paid for
    by misses and by the sizes of the tables that Range promotes. */
module MapCost {
  import opened Basics
  import opened MapSpec
  import opened MapMachine
  import opened MapInvariant
  import opened MapSteps

  function PcOf(s: State, a: Action): Option<Pc> {
    if a.Step? && a.c < |s.calls| then Some(s.calls[a.c].pc) else None
  }

  /** Does this action finish with one entry of the scan in dirtyLocked? */
  function Scans(s: State, a: Action): nat {
    match PcOf(s, a)
    case Some(DirtyProbe(_, j)) => if j in s.read.m && !PtrOf(s, s.read.m[j]).Nil? then 1 else 0
    case Some(DirtyCas(_, j)) => if j in s.read.m && PtrOf(s, s.read.m[j]).Nil? then 1 else 0
    case _ => 0
  }

  /** Does this action run missLocked? */
  function Misses(s: State, a: Action): nat {
    match PcOf(s, a)
    case Some(MissLookup) => 1
    case Some(Miss(_)) => 1
    case _ => 0
  }

  /** The size of the table this action promotes for a Range. */
  function Promotes(s: State, a: Action): nat {
    match PcOf(s, a)
    case Some(RangePromote) => |DirtyTable(s)|
    case _ => 0
  }

  function Scanned(acts: seq<Action>): nat {
    if acts == [] then 0
    else Scanned(acts[..|acts| - 1]) + Scans(Run(acts[..|acts| - 1]), acts[|acts| - 1])
  }

  function Paid(acts: seq<Action>): nat {
    if acts == [] then 0
    else
      var s, a := Run(acts[..|acts| - 1]), acts[|acts| - 1];
      Paid(acts[..|acts| - 1]) + Misses(s, a) + Promotes(s, a)
  }

  /** Entries the lock holder has still to scan. */
  function ToScan(s: State): nat {
    if s.mu.None? || s.mu.value >= |s.calls| then 0
    else
      match s.calls[s.mu.value].pc
      case DirtyLoop(todo) => |todo|
      case DirtyProbe(todo, _) => |todo|
      case DirtyCas(todo, _) => |todo|
      case _ => 0
  }

  /** Scans already owed: the copy under way or, while there is no `dirty`, the next copy; and the misses so far. */
  function Owed(s: State): nat {
    ToScan(s) + (if s.dirty.None? then |s.read.m| else 0) + s.misses
  }

  lemma {:induction false} RemoveOne<T>(s: set<T>, x: T)
    requires x in s
    ensures |s - {x}| == |s| - 1
  {
    assert s == (s - {x}) + {x};
  }

  /** A step of a call without the lock costs nothing. */
  lemma {:induction false} FreeCost(s: State, c: CallId, pick: Key)
    requires Locking(s) && c < |s.calls| && !HoldsLock(s.calls[c].pc)
    ensures Owed(StepCall(s, c, pick)) == Owed(s)
  {
  }

  lemma {:induction false} ProbeCost(s: State, c: CallId, todo: set<Key>, j: Key, pick: Key)
    requires s.mu == Some(c) && c < |s.calls| && j in todo && j in s.read.m && s.dirty.Some?
    requires s.calls[c].pc == DirtyProbe(todo, j)
    ensures Scans(s, Step(c, pick)) + Owed(DoDirtyProbe(s, c, todo, j)) <= Owed(s)
  {
    RemoveOne(todo, j);
  }

  lemma {:induction false} CasCost(s: State, c: CallId, todo: set<Key>, j: Key, pick: Key)
    requires s.mu == Some(c) && c < |s.calls| && j in todo && j in s.read.m
    requires s.calls[c].pc == DirtyCas(todo, j)
    ensures Scans(s, Step(c, pick)) + Owed(DoDirtyCas(s, c, todo, j)) <= Owed(s)
  {
    RemoveOne(todo, j);
  }

  lemma {:induction false} BeginCost(s: State, c: CallId)
    requires s.mu == Some(c) && c < |s.calls| && s.dirty.None? && s.calls[c].pc == DirtyBegin
    ensures Owed(DoDirtyBegin(s, c)) <= Owed(s)
  {
    assert |s.read.m.Keys| == |s.read.m|;
  }

  lemma {:induction false} ScanCost(s: State, c: CallId, pick: Key)
    requires s.mu == Some(c) && c < |s.calls| && Local(s, c)
    requires BuildsDirty(s.calls[c].pc) || s.calls[c].pc.DirtyBegin?
    requires s.calls[c].pc.DirtyBegin? <==> s.dirty.None?
    ensures Scans(s, Step(c, pick)) + Owed(StepCall(s, c, pick)) <= Owed(s)
  {
    match s.calls[c].pc
    case DirtyProbe(todo, j) =>
      assert StepCall(s, c, pick) == DoDirtyProbe(s, c, todo, j);
      ProbeCost(s, c, todo, j, pick);
    case DirtyCas(todo, j) =>
      assert StepCall(s, c, pick) == DoDirtyCas(s, c, todo, j);
      CasCost(s, c, todo, j, pick);
    case DirtyBegin => BeginCost(s, c);
    case _ =>
  }

  predicate NeedsDirty(pc: Pc) {
    pc.Relink? || pc.Insert? || pc.MissLookup? || pc.Miss? || pc.RangePromote?
  }

  /** A step under the lock that leaves `dirty` alone costs nothing. */
  lemma {:induction false} OtherLockedCost(s: State, c: CallId, pick: Key)
    requires s.mu == Some(c) && c < |s.calls| && HoldsLock(s.calls[c].pc) && !NeedsDirty(s.calls[c].pc)
    requires !BuildsDirty(s.calls[c].pc) && !s.calls[c].pc.DirtyBegin? && !s.calls[c].pc.Faulted?
    ensures Owed(StepCall(s, c, pick)) <= Owed(s)
  {
    var t := StepCall(s, c, pick);
    assert t.dirty == s.dirty && t.read == s.read && t.misses == s.misses;
    assert t.mu == Some(c) ==> !BuildsDirty(t.calls[c].pc);
  }

  lemma {:induction false} LockedCost(s: State, c: CallId, pick: Key)
    requires s.mu == Some(c) && c < |s.calls| && HoldsLock(s.calls[c].pc)
    requires !BuildsDirty(s.calls[c].pc) && !s.calls[c].pc.DirtyBegin? && !s.calls[c].pc.Faulted?
    requires NeedsDirty(s.calls[c].pc) ==> s.dirty.Some?
    ensures var a := Step(c, pick); Owed(StepCall(s, c, pick)) <= Owed(s) + Misses(s, a) + Promotes(s, a)
  {
    if !NeedsDirty(s.calls[c].pc) { OtherLockedCost(s, c, pick); }
  }

  lemma {:induction false} StepCost(s: State, c: CallId, pick: Key)
    requires Inv(s) && c < |s.calls|
    ensures var a := Step(c, pick);
            Scans(s, a) + Owed(StepCall(s, c, pick)) <= Owed(s) + Misses(s, a) + Promotes(s, a)
  {
    var pc := s.calls[c].pc;
    assert Local(s, c);
    if !HoldsLock(pc) { FreeCost(s, c, pick); }
    else if BuildsDirty(pc) || pc.DirtyBegin? { ScanCost(s, c, pick); }
    else { LockedCost(s, c, pick); }
  }

  /** Copying is amortized: every scheduled sequence of operations scans at most as many entries as it has
      misses and promoted entries, and what is still owed fits in the same budget. */
  lemma {:induction false} CopyingIsPaid(acts: seq<Action>)
    ensures Scanned(acts) + Owed(Run(acts)) <= Paid(acts)
  {
    if acts != [] {
      var before, a := acts[..|acts| - 1], acts[|acts| - 1];
      CopyingIsPaid(before);
      RunKeeps(before);
      match a
      case Invoke(_, _, _) =>
      case Step(c, pick) => if c < |Run(before).calls| { StepCost(Run(before), c, pick); }
    }
  }

  // ----- the miss counter

  /** The lock holder is on its way to filing a new key in `dirty`. */
  predicate AboutToInsert(s: State) {
    s.mu.Some? && s.mu.value < |s.calls|
    && (BuildsDirty(s.calls[s.mu.value].pc) || s.calls[s.mu.value].pc.Insert?)
  }

  /** Misses stay below the size of `dirty`, and there are none while it does not exist. */
  predicate MissesBelow(s: State) {
    if s.dirty.None? then s.misses == 0
    else s.misses < |s.dirty.value| || (s.misses == 0 && AboutToInsert(s))
  }

  lemma {:induction false} LockedMisses(s: State, c: CallId, pick: Key)
    requires s.mu == Some(c) && c < |s.calls| && Local(s, c) && MissesBelow(s)
    requires BuildsDirty(s.calls[c].pc) || NeedsDirty(s.calls[c].pc) ==> s.dirty.Some?
    requires HoldsLock(s.calls[c].pc)
    requires s.calls[c].pc.Locked? && s.dirty.Some? ==> s.read.amended
    ensures MissesBelow(StepCall(s, c, pick))
  {
  }

  lemma {:induction false} FreeMisses(s: State, c: CallId, pick: Key)
    requires Locking(s) && c < |s.calls| && !HoldsLock(s.calls[c].pc) && MissesBelow(s)
    ensures MissesBelow(StepCall(s, c, pick))
  {
  }

  /** After every schedule, with the lock free: fewer misses than entries of `dirty`, and none without it. */
  lemma {:induction false} MissesStayBelow(acts: seq<Action>)
    ensures MissesBelow(Run(acts))
  {
    if acts != [] {
      var s, a := Run(acts[..|acts| - 1]), acts[|acts| - 1];
      MissesStayBelow(acts[..|acts| - 1]);
      RunKeeps(acts[..|acts| - 1]);
      match a
      case Invoke(_, _, _) =>
      case Step(c, pick) =>
        if c < |s.calls| {
          assert Local(s, c);
          if HoldsLock(s.calls[c].pc) { LockedMisses(s, c, pick); } else { FreeMisses(s, c, pick); }
        }
    }
  }
}
