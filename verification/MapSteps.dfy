/** Every step of the concurrent map keeps its invariant: one lemma per program point. */
module MapSteps {
  import opened Basics
  import opened MapSpec
  import opened MapMachine
  import opened MapInvariant

  // ----- steps that change neither table and no entry

  /** The rule for a step that only moves its call on. */
  lemma {:induction false} GotoKeeps(s: State, c: CallId, pc: Pc)
    requires Inv(s) && c < |s.calls|
    requires HoldsLock(pc) <==> HoldsLock(s.calls[c].pc)
    requires Busy(Goto(s, c, pc)) == Busy(s) && Building(Goto(s, c, pc)) == Building(s)
    requires Local(Goto(s, c, pc), c)
    ensures Inv(Goto(s, c, pc))
    ensures Rely(s, Goto(s, c, pc), c)
  {
    var t := Goto(s, c, pc);
    SameTablesKeep(s, t, Busy(s), Building(s));
    StepKeeps(s, t, c);
  }

  lemma {:induction false} StartGoesLocal(s: State, c: CallId)
    requires Tables(s, Busy(s), Building(s)) && c < |s.calls| && s.calls[c].pc == Start
    ensures Local(Goto(s, c, FastLookup(s, c)), c)
  {
  }

  lemma {:induction false} StartKeeps(s: State, c: CallId)
    requires Inv(s) && c < |s.calls| && s.calls[c].pc == Start
    ensures Inv(Goto(s, c, FastLookup(s, c)))
    ensures Rely(s, Goto(s, c, FastLookup(s, c)), c)
  {
    StartGoesLocal(s, c);
    GotoKeeps(s, c, FastLookup(s, c));
  }

  lemma {:induction false} WaitKeeps(s: State, c: CallId)
    requires Inv(s) && c < |s.calls| && s.calls[c].pc == Wait && s.mu.None?
    ensures Inv(Goto(s.(mu := Some(c)), c, Locked))
    ensures Rely(s, Goto(s.(mu := Some(c)), c, Locked), c)
  {
    StepKeeps(s, Goto(s.(mu := Some(c)), c, Locked), c);
  }

  lemma {:induction false} LockedGoesLocal(s: State, c: CallId)
    requires Tables(s, {}, false) && c < |s.calls| && s.calls[c].pc == Locked
    ensures Local(Goto(s, c, LockedLookup(s, c)), c)
  {
    var k := s.calls[c].key;
    if s.dirty.Some? && k in s.read.m { assert Agrees(s, k, {}); }
  }

  lemma {:induction false} LockedKeeps(s: State, c: CallId)
    requires Inv(s) && c < |s.calls| && s.calls[c].pc == Locked
    ensures Inv(Goto(s, c, LockedLookup(s, c)))
    ensures Rely(s, Goto(s, c, LockedLookup(s, c)), c)
  {
    LockedGoesLocal(s, c);
    GotoKeeps(s, c, LockedLookup(s, c));
  }

  lemma {:induction false} TryGoesLocal(s: State, c: CallId, e: EntryId, mode: Mode)
    requires Tables(s, Busy(s), Building(s)) && c < |s.calls| && Local(s, c) && s.calls[c].pc == Try(e, mode)
    ensures Local(DoTry(s, c, e, mode), c)
  {
  }

  lemma {:induction false} TryKeeps(s: State, c: CallId, e: EntryId, mode: Mode)
    requires Inv(s) && c < |s.calls| && s.calls[c].pc == Try(e, mode)
    ensures Inv(DoTry(s, c, e, mode))
    ensures Rely(s, DoTry(s, c, e, mode), c)
  {
    TryGoesLocal(s, c, e, mode);
    GotoKeeps(s, c, TryLoad(s.calls[c].kind, e, mode, PtrOf(s, e)));
  }

  lemma {:induction false} TryCasMissKeeps(s: State, c: CallId, e: EntryId, p: Ptr, mode: Mode)
    requires Inv(s) && c < |s.calls| && s.calls[c].pc == TryCas(e, p, mode) && PtrOf(s, e) != p
    ensures Inv(DoTryCas(s, c, e, p, mode))
    ensures Rely(s, DoTryCas(s, c, e, p, mode), c)
  {
    assert Local(s, c);
    GotoKeeps(s, c, Try(e, mode));
  }

  lemma {:induction false} UnlockKeeps(s: State, c: CallId, after: After)
    requires Inv(s) && c < |s.calls| && s.calls[c].pc == Unlock(after)
    ensures Inv(DoUnlock(s, c, after))
    ensures Rely(s, DoUnlock(s, c, after), c)
  {
    assert Local(s, c) && s.mu == Some(c);
    StepKeeps(s, DoUnlock(s, c, after), c);
  }

  lemma {:induction false} RangeLoopKeeps(s: State, c: CallId, rest: map<Key, EntryId>, out: Table, pick: Key)
    requires Inv(s) && c < |s.calls| && s.calls[c].pc == RangeLoop(rest, out)
    ensures Inv(DoRangeLoop(s, c, rest, out, pick))
    ensures Rely(s, DoRangeLoop(s, c, rest, out, pick), c)
  {
    assert Local(s, c);
    if rest == map[] {
      GotoKeeps(s, c, RangeDone(out));
    } else if pick in rest {
      assert Visits(s, rest - {pick});
      var v := ValueOf(PtrOf(s, rest[pick]));
      GotoKeeps(s, c, RangeLoop(rest - {pick}, if v.Some? then out[pick := v.value] else out));
    }
  }

  lemma {:induction false} DirtyLoopKeeps(s: State, c: CallId, todo: set<Key>, pick: Key)
    requires Inv(s) && c < |s.calls| && s.calls[c].pc == DirtyLoop(todo)
    ensures Inv(DoDirtyLoop(s, c, todo, pick))
    ensures Rely(s, DoDirtyLoop(s, c, todo, pick), c)
  {
    assert Local(s, c) && s.mu == Some(c);
    if todo == {} {
      GotoKeeps(s, c, Amend);
    } else if pick in todo {
      GotoKeeps(s, c, DirtyProbe(todo, pick));
    }
  }

  // ----- steps that write one entry that is, and stays, not expunged

  lemma {:induction false} EntryWriteKeeps(s: State, c: CallId, e: EntryId, p: Ptr, pc: Pc)
    requires Inv(s) && c < |s.calls| && e < |s.entries|
    requires !PtrOf(s, e).Expunged? && !p.Expunged?
    requires !BuildsDirty(s.calls[c].pc) && !s.calls[c].pc.Relink?
    requires !BuildsDirty(pc) && !pc.Relink?
    requires HoldsLock(pc) <==> HoldsLock(s.calls[c].pc)
    requires Local(Goto(SetPtr(s, e, p), c, pc), c)
    ensures Inv(Goto(SetPtr(s, e, p), c, pc))
    ensures Rely(s, Goto(SetPtr(s, e, p), c, pc), c)
  {
    var t := Goto(SetPtr(s, e, p), c, pc);
    assert SameTables(s, t);
    assert Busy(t) == Busy(s) && Building(t) == Building(s);
    SameTablesKeep(s, t, Busy(s), Building(s));
    StepKeeps(s, t, c);
  }

  lemma {:induction false} TryCasHitKeeps(s: State, c: CallId, e: EntryId, p: Ptr, mode: Mode)
    requires Inv(s) && c < |s.calls| && s.calls[c].pc == TryCas(e, p, mode) && PtrOf(s, e) == p
    ensures Inv(DoTryCas(s, c, e, p, mode))
    ensures Rely(s, DoTryCas(s, c, e, p, mode), c)
  {
    assert Local(s, c);
    EntryWriteKeeps(s, c, e, NewPtr(s, c), Finish(mode, ValueOf(p)));
  }

  lemma {:induction false} SwapLockedKeeps(s: State, c: CallId, e: EntryId)
    requires Inv(s) && c < |s.calls| && s.calls[c].pc == SwapLocked(e)
    ensures Inv(DoSwapLocked(s, c, e))
    ensures Rely(s, DoSwapLocked(s, c, e), c)
  {
    assert Local(s, c);
    EntryWriteKeeps(s, c, e, NewPtr(s, c), Unlock(Return(ValueOf(PtrOf(s, e)))));
  }

  // ----- expunging and unexpunging

  lemma {:induction false} UnexpungeKeeps(s: State, c: CallId, e: EntryId)
    requires Inv(s) && c < |s.calls| && s.calls[c].pc == Unexpunge(e)
    ensures Inv(DoUnexpunge(s, c, e))
    ensures Rely(s, DoUnexpunge(s, c, e), c)
  {
    assert Local(s, c) && s.mu == Some(c);
    var t := DoUnexpunge(s, c, e);
    if PtrOf(s, e).Expunged? {
      assert Agrees(s, s.calls[c].key, {});
      forall k | k in t.read.m ensures Agrees(t, k, Busy(t)) {
        assert Agrees(s, k, {});
      }
    }
    StepKeeps(s, t, c);
  }

  lemma {:induction false} RelinkKeeps(s: State, c: CallId, e: EntryId)
    requires Inv(s) && c < |s.calls| && s.calls[c].pc == Relink(e)
    ensures s.dirty.Some? && Inv(DoRelink(s, c, e))
    ensures Rely(s, DoRelink(s, c, e), c)
  {
    assert Local(s, c) && s.mu == Some(c);
    var t := DoRelink(s, c, e);
    forall k | k in t.read.m ensures Agrees(t, k, {}) {
      assert Agrees(s, k, {s.calls[c].key});
    }
    StepKeeps(s, t, c);
  }

  lemma {:induction false} DirtyProbeKeeps(s: State, c: CallId, todo: set<Key>, j: Key)
    requires Inv(s) && c < |s.calls| && s.calls[c].pc == DirtyProbe(todo, j)
    ensures Inv(DoDirtyProbe(s, c, todo, j))
    ensures Rely(s, DoDirtyProbe(s, c, todo, j), c)
  {
    assert Local(s, c) && s.mu == Some(c);
    var t := DoDirtyProbe(s, c, todo, j);
    forall k | k in t.read.m ensures Agrees(t, k, Busy(t)) {
      assert Agrees(s, k, todo);
    }
    StepKeeps(s, t, c);
  }

  lemma {:induction false} DirtyCasKeeps(s: State, c: CallId, todo: set<Key>, j: Key)
    requires Inv(s) && c < |s.calls| && s.calls[c].pc == DirtyCas(todo, j)
    ensures Inv(DoDirtyCas(s, c, todo, j))
    ensures Rely(s, DoDirtyCas(s, c, todo, j), c)
  {
    assert Local(s, c) && s.mu == Some(c);
    var t := DoDirtyCas(s, c, todo, j);
    forall k | k in t.read.m ensures Agrees(t, k, Busy(t)) {
      assert Agrees(s, k, todo);
    }
    StepKeeps(s, t, c);
  }

  // ----- steps of the lock holder that change a table

  lemma {:induction false} DirtyBeginKeeps(s: State, c: CallId)
    requires Inv(s) && c < |s.calls| && s.calls[c].pc == DirtyBegin
    ensures s.dirty.None? && Inv(DoDirtyBegin(s, c))
    ensures Rely(s, DoDirtyBegin(s, c), c)
  {
    assert Local(s, c) && s.mu == Some(c);
    StepKeeps(s, DoDirtyBegin(s, c), c);
  }

  lemma {:induction false} AmendKeeps(s: State, c: CallId)
    requires Inv(s) && c < |s.calls| && s.calls[c].pc == Amend
    ensures Inv(DoAmend(s, c))
    ensures Rely(s, DoAmend(s, c), c)
  {
    assert Local(s, c) && s.mu == Some(c);
    var t := DoAmend(s, c);
    forall k | k in t.read.m ensures Agrees(t, k, {}) {
      assert Agrees(s, k, {});
    }
    StepKeeps(s, t, c);
  }

  lemma {:induction false} InsertKeeps(s: State, c: CallId)
    requires Inv(s) && c < |s.calls| && s.calls[c].pc == Insert
    ensures s.dirty.Some? && Inv(DoInsert(s, c))
    ensures Rely(s, DoInsert(s, c), c)
  {
    assert Local(s, c) && s.mu == Some(c);
    var t := DoInsert(s, c);
    forall k | k in t.read.m ensures Agrees(t, k, {}) {
      assert Agrees(s, k, {});
    }
    StepKeeps(s, t, c);
  }

  /** Promoting `dirty`, possibly after dropping keys that only `dirty` has. */
  lemma {:induction false} PromoteKeeps(s: State, c: CallId, d: map<Key, EntryId>, after: After)
    requires Inv(s) && c < |s.calls| && s.mu == Some(c) && s.read.amended && Busy(s) == {}
    requires forall k :: k in d ==> k in DirtyTable(s) && d[k] == DirtyTable(s)[k]
    requires forall k :: k in DirtyTable(s) && k !in d ==> k !in s.read.m
    requires var t := Goto(s.(read := ReadOnly(d, false), dirty := None, misses := 0), c, Unlock(after));
             Local(t, c)
    ensures Inv(Goto(s.(read := ReadOnly(d, false), dirty := None, misses := 0), c, Unlock(after)))
    ensures Rely(s, Goto(s.(read := ReadOnly(d, false), dirty := None, misses := 0), c, Unlock(after)), c)
  {
    var t := Goto(s.(read := ReadOnly(d, false), dirty := None, misses := 0), c, Unlock(after));
    forall k | k in d ensures !PtrOf(t, d[k]).Expunged? {
      assert k in s.read.m ==> Agrees(s, k, {});
    }
    forall e: EntryId | Published(s, e) ensures Published(t, e) {
      var k := s.entries[e].key;
      if InRead(s, e) { assert Agrees(s, k, {}); }
    }
    forall e: EntryId | Detached(s, e) ensures Detached(t, e) {
    }
    StepKeeps(s, t, c);
  }

  /** A miss that does not promote; LoadAndDelete also unlinks the key. */
  lemma {:induction false} CountMissKeeps(s: State, c: CallId, d: map<Key, EntryId>, after: After)
    requires Inv(s) && c < |s.calls| && s.mu == Some(c) && s.read.amended && Busy(s) == {}
    requires forall k :: k in d ==> k in DirtyTable(s) && d[k] == DirtyTable(s)[k]
    requires forall k :: k in DirtyTable(s) && k !in d ==> k !in s.read.m
    requires var t := Goto(s.(dirty := Some(d), misses := s.misses + 1), c, Unlock(after)); Local(t, c)
    ensures Inv(Goto(s.(dirty := Some(d), misses := s.misses + 1), c, Unlock(after)))
    ensures Rely(s, Goto(s.(dirty := Some(d), misses := s.misses + 1), c, Unlock(after)), c)
  {
    var t := Goto(s.(dirty := Some(d), misses := s.misses + 1), c, Unlock(after));
    forall k | k in t.read.m ensures Agrees(t, k, {}) {
      assert Agrees(s, k, {});
    }
    StepKeeps(s, t, c);
  }

  lemma {:induction false} MissLockedKeeps(s: State, c: CallId, d: map<Key, EntryId>, after: After)
    requires Inv(s) && c < |s.calls| && s.mu == Some(c) && s.read.amended && Busy(s) == {}
    requires forall k :: k in d ==> k in DirtyTable(s) && d[k] == DirtyTable(s)[k]
    requires forall k :: k in DirtyTable(s) && k !in d ==> k !in s.read.m
    requires Local(Goto(MissLocked(s, d), c, Unlock(after)), c)
    ensures Inv(Goto(MissLocked(s, d), c, Unlock(after)))
    ensures Rely(s, Goto(MissLocked(s, d), c, Unlock(after)), c)
  {
    if s.misses + 1 < |d| {
      CountMissKeeps(s, c, d, after);
    } else {
      PromoteKeeps(s, c, d, after);
    }
  }

  lemma {:induction false} MissKeeps(s: State, c: CallId, r: Option<Cell>)
    requires Inv(s) && c < |s.calls| && s.calls[c].pc == Miss(r)
    ensures Inv(Goto(MissLocked(s, DirtyTable(s)), c, Unlock(Return(r))))
    ensures Rely(s, Goto(MissLocked(s, DirtyTable(s)), c, Unlock(Return(r))), c)
  {
    assert Local(s, c) && s.mu == Some(c);
    MissLockedKeeps(s, c, DirtyTable(s), Return(r));
  }

  lemma {:induction false} MissLookupKeeps(s: State, c: CallId)
    requires Inv(s) && c < |s.calls| && s.calls[c].pc == MissLookup
    ensures s.dirty.Some? && Inv(DoMissLookup(s, c))
    ensures Rely(s, DoMissLookup(s, c), c)
  {
    assert Local(s, c) && s.mu == Some(c);
    var k, d, unlink := s.calls[c].key, DirtyTable(s), s.calls[c].kind.LoadAndDelete?;
    var after := if k in d then Probe(d[k], if unlink then Own else Fast) else Return(None);
    MissLockedKeeps(s, c, if unlink then d - {k} else d, after);
  }

  lemma {:induction false} RangePromoteKeeps(s: State, c: CallId)
    requires Inv(s) && c < |s.calls| && s.calls[c].pc == RangePromote
    ensures Inv(DoRangePromote(s, c))
    ensures Rely(s, DoRangePromote(s, c), c)
  {
    assert Local(s, c) && s.mu == Some(c);
    PromoteKeeps(s, c, DirtyTable(s), Visit(DirtyTable(s)));
  }

  // ----- all steps

  lemma {:induction false} FreeStepKeeps(s: State, c: CallId, pick: Key)
    requires Inv(s) && c < |s.calls| && !HoldsLock(s.calls[c].pc) && !s.calls[c].pc.Try? && !s.calls[c].pc.TryCas?
    ensures Inv(StepCall(s, c, pick)) && Rely(s, StepCall(s, c, pick), c)
  {
    match s.calls[c].pc
    case Start => StartKeeps(s, c);
    case Wait => if s.mu.None? { WaitKeeps(s, c); }
    case RangeLoop(rest, out) => RangeLoopKeeps(s, c, rest, out, pick);
    case Done(_) =>
    case RangeDone(_) =>
  }

  lemma {:induction false} AnyTryCasKeeps(s: State, c: CallId, e: EntryId, p: Ptr, mode: Mode)
    requires Inv(s) && c < |s.calls| && s.calls[c].pc == TryCas(e, p, mode)
    ensures Inv(DoTryCas(s, c, e, p, mode)) && Rely(s, DoTryCas(s, c, e, p, mode), c)
  {
    if PtrOf(s, e) == p { TryCasHitKeeps(s, c, e, p, mode); } else { TryCasMissKeeps(s, c, e, p, mode); }
  }

  lemma {:induction false} LockedStepKeeps(s: State, c: CallId, pick: Key)
    requires Inv(s) && c < |s.calls| && HoldsLock(s.calls[c].pc) && !s.calls[c].pc.Try? && !s.calls[c].pc.TryCas?
    ensures Inv(StepCall(s, c, pick)) && Rely(s, StepCall(s, c, pick), c)
  {
    match s.calls[c].pc
    case Locked => LockedKeeps(s, c);
    case Unexpunge(e) => UnexpungeKeeps(s, c, e);
    case Relink(e) => RelinkKeeps(s, c, e);
    case SwapLocked(e) => SwapLockedKeeps(s, c, e);
    case MissLookup => MissLookupKeeps(s, c);
    case DirtyBegin => DirtyBeginKeeps(s, c);
    case DirtyLoop(todo) => DirtyLoopKeeps(s, c, todo, pick);
    case DirtyProbe(todo, j) => DirtyProbeKeeps(s, c, todo, j);
    case DirtyCas(todo, j) => DirtyCasKeeps(s, c, todo, j);
    case Amend => AmendKeeps(s, c);
    case Insert => InsertKeeps(s, c);
    case Miss(r) => MissKeeps(s, c, r);
    case Unlock(after) => UnlockKeeps(s, c, after);
    case RangePromote => RangePromoteKeeps(s, c);
    case Faulted =>
  }

  lemma {:induction false} StepCallKeeps(s: State, c: CallId, pick: Key)
    requires Inv(s) && c < |s.calls|
    ensures Inv(StepCall(s, c, pick)) && Rely(s, StepCall(s, c, pick), c)
  {
    match s.calls[c].pc
    case Try(e, mode) => TryKeeps(s, c, e, mode);
    case TryCas(e, p, mode) => AnyTryCasKeeps(s, c, e, p, mode);
    case _ => if HoldsLock(s.calls[c].pc) { LockedStepKeeps(s, c, pick); } else { FreeStepKeeps(s, c, pick); }
  }

  lemma {:induction false} InvokeLeavesOthers(s: State, t: State, c: CallId)
    requires c < |s.calls| < |t.calls| && t == s.(calls := t.calls) && t.calls[c] == s.calls[c]
    requires Local(s, c)
    ensures Local(t, c)
  {
  }

  lemma {:induction false} InvokeKeeps(s: State, kind: Kind, key: Key, val: Val)
    requires Inv(s)
    ensures Inv(Next(s, Invoke(kind, key, val)))
  {
    var t := Next(s, Invoke(kind, key, val));
    assert forall c :: 0 <= c < |s.calls| ==> t.calls[c] == s.calls[c];
    assert Busy(t) == Busy(s) && Building(t) == Building(s);
    SameTablesKeep(s, t, Busy(s), Building(s));
    forall c | 0 <= c < |t.calls| ensures Local(t, c) {
      if c < |s.calls| { InvokeLeavesOthers(s, t, c); }
    }
  }

  /** The read/dirty/expunged invariant holds after every schedule of any calls. */
  lemma {:induction false} RunKeeps(acts: seq<Action>)
    ensures Inv(Run(acts))
  {
    if acts != [] {
      var s, a := Run(acts[..|acts| - 1]), acts[|acts| - 1];
      RunKeeps(acts[..|acts| - 1]);
      match a
      case Invoke(kind, key, val) => InvokeKeeps(s, kind, key, val);
      case Step(c, pick) => if c < |s.calls| { StepCallKeeps(s, c, pick); }
    }
  }
}
