/** Every call of the concurrent map can be brought to its end: a call that alone takes steps, with the lock free or
    its own, returns; and so can all calls, one after the other, whoever holds the lock. */
module MapProgress {
  import opened Basics
  import opened MapSpec
  import opened MapMachine
  import opened MapInvariant
  import opened MapSteps
  import opened MapHistory

  /** The lock is free, or held by `c`. */
  predicate LockIsOpen(s: State, c: CallId) {
    s.mu in {None, Some(c)}
  }

  /** `pick` names something still to be visited where the call ranges over a table. */
  predicate PickOk(pc: Pc, pick: Key) {
    match pc
    case DirtyLoop(todo) => todo == {} || pick in todo
    case RangeLoop(rest, _) => rest == map[] || pick in rest
    case _ => true
  }

  /** How far the call is from its end, in stages. */
  function Stage(kind: Kind, pc: Pc): nat {
    match pc
    case Start => 9
    case Try(_, mode) => TryStage(kind, mode)
    case TryCas(_, _, mode) => TryStage(kind, mode)
    case Wait => 7
    case Locked => 6
    case Unexpunge(_) => 5
    case Relink(_) => 4
    case DirtyBegin => 5
    case DirtyLoop(_) => 4
    case DirtyProbe(_, _) => 4
    case DirtyCas(_, _) => 4
    case Miss(_) => 2
    case Unlock(after) => if after.Probe? && Inserts(kind) then 9 else 1
    case RangeLoop(_, _) => 0
    case Done(_) => 0
    case RangeDone(_) => 0
    case _ => 3
  }

  /** Only Swap and LoadOrStore may have to turn from an expunged entry to the lock. */
  function TryStage(kind: Kind, mode: Mode): nat {
    match mode
    case Fast => if Inserts(kind) then 8 else 0
    case Own => 0
    case _ => 3
  }

  /** How far within the stage: a compare-and-swap that will fail goes back to the load, once. */
  function Within(s: State, pc: Pc): nat {
    match pc
    case Try(_, _) => 2
    case TryCas(e, p, _) => if PtrOf(s, e) == p then 1 else 3
    case DirtyLoop(todo) => 4 * |todo|
    case DirtyProbe(todo, _) => 4 * |todo| - (if todo == {} then 0 else 2)
    case DirtyCas(todo, j) =>
      if todo == {} then 0
      else if j in s.read.m && PtrOf(s, s.read.m[j]).Nil? then 4 * |todo| - 3 else 4 * |todo| - 1
    case Amend => 1
    case RangeLoop(rest, _) => |rest| + 1
    case _ => 0
  }

  /** The step has brought the call nearer to its end. */
  ghost predicate Nearer(s: State, t: State, c: CallId)
    requires c < |s.calls| && c < |t.calls|
  {
    var kind, p, q := s.calls[c].kind, s.calls[c].pc, t.calls[c].pc;
    Returned(q) || Stage(kind, q) < Stage(kind, p) || (Stage(kind, q) == Stage(kind, p) && Within(t, q) < Within(s, p))
  }

  lemma {:induction false} FreeStepNearer(s: State, c: CallId, pick: Key)
    requires c < |s.calls| && LockIsOpen(s, c) && !Returned(s.calls[c].pc) && PickOk(s.calls[c].pc, pick)
    requires s.calls[c].pc.Start? || s.calls[c].pc.RangeLoop? || (s.calls[c].pc.Wait? && s.mu.None?)
    ensures Nearer(s, StepCall(s, c, pick), c)
  {
  }

  lemma {:induction false} EntryStepNearer(s: State, c: CallId, pick: Key)
    requires c < |s.calls| && (s.calls[c].pc.Try? || s.calls[c].pc.TryCas?) && MapInvariant.Local(s, c)
    ensures StepCall(s, c, pick).calls[c].pc.Faulted? || Nearer(s, StepCall(s, c, pick), c)
  {
    match s.calls[c].pc
    case Try(e, mode) => assert StepCall(s, c, pick) == DoTry(s, c, e, mode);
    case TryCas(e, p, mode) => assert StepCall(s, c, pick) == DoTryCas(s, c, e, p, mode);
  }

  lemma {:induction false} RemoveOne(todo: set<Key>, j: Key)
    requires j in todo
    ensures |todo - {j}| == |todo| - 1
  {
  }

  lemma {:induction false} ProbeStepNearer(s: State, c: CallId, todo: set<Key>, j: Key)
    requires c < |s.calls| && s.calls[c].pc == DirtyProbe(todo, j) && j in todo
    ensures var t := DoDirtyProbe(s, c, todo, j); t.calls[c].pc.Faulted? || Nearer(s, t, c)
  {
    RemoveOne(todo, j);
  }

  lemma {:induction false} CasStepNearer(s: State, c: CallId, todo: set<Key>, j: Key)
    requires c < |s.calls| && s.calls[c].pc == DirtyCas(todo, j) && j in todo
    ensures var t := DoDirtyCas(s, c, todo, j); t.calls[c].pc.Faulted? || Nearer(s, t, c)
  {
    RemoveOne(todo, j);
  }

  lemma {:induction false} ScanStepNearer(s: State, c: CallId, pick: Key)
    requires c < |s.calls| && MapInvariant.Local(s, c) && PickOk(s.calls[c].pc, pick)
    requires s.calls[c].pc.DirtyLoop? || s.calls[c].pc.DirtyProbe? || s.calls[c].pc.DirtyCas?
    ensures StepCall(s, c, pick).calls[c].pc.Faulted? || Nearer(s, StepCall(s, c, pick), c)
  {
    match s.calls[c].pc
    case DirtyLoop(todo) => assert StepCall(s, c, pick) == DoDirtyLoop(s, c, todo, pick);
    case DirtyProbe(todo, j) => ProbeStepNearer(s, c, todo, j);
    case DirtyCas(todo, j) => CasStepNearer(s, c, todo, j);
  }

  lemma {:induction false} LookupNearer(s: State, c: CallId, pick: Key)
    requires c < |s.calls| && s.calls[c].pc.Locked?
    ensures Nearer(s, StepCall(s, c, pick), c)
  {
    assert StepCall(s, c, pick) == Goto(s, c, LockedLookup(s, c));
  }

  lemma {:induction false} MissLookupNearer(s: State, c: CallId)
    requires c < |s.calls| && s.calls[c].pc.MissLookup? && !Inserts(s.calls[c].kind)
    ensures Nearer(s, DoMissLookup(s, c), c)
  {
  }

  lemma {:induction false} UnexpungeNearer(s: State, c: CallId, e: EntryId)
    requires c < |s.calls| && s.calls[c].pc == Unexpunge(e)
    ensures Nearer(s, DoUnexpunge(s, c, e), c)
  {
  }

  lemma {:induction false} RelinkNearer(s: State, c: CallId, e: EntryId)
    requires c < |s.calls| && s.calls[c].pc == Relink(e)
    ensures var t := DoRelink(s, c, e); t.calls[c].pc.Faulted? || Nearer(s, t, c)
  {
  }

  lemma {:induction false} UnlockNearer(s: State, c: CallId, after: After)
    requires c < |s.calls| && s.calls[c].pc == Unlock(after)
    requires after.Probe? ==> after.mode.Fast? || after.mode.Own?
    ensures Nearer(s, DoUnlock(s, c, after), c)
  {
  }

  lemma {:induction false} LockedStepNearer(s: State, c: CallId, pick: Key)
    requires c < |s.calls| && MapInvariant.Local(s, c) && HoldsLock(s.calls[c].pc)
    requires !s.calls[c].pc.Try? && !s.calls[c].pc.TryCas? && !BuildsDirty(s.calls[c].pc)
    ensures StepCall(s, c, pick).calls[c].pc.Faulted? || Nearer(s, StepCall(s, c, pick), c)
  {
    match s.calls[c].pc
    case Locked => LookupNearer(s, c, pick);
    case Unexpunge(e) => UnexpungeNearer(s, c, e);
    case Relink(e) => RelinkNearer(s, c, e);
    case MissLookup => MissLookupNearer(s, c);
    case Unlock(after) => UnlockNearer(s, c, after);
    case _ => PlainNearer(s, c, pick);
  }

  lemma {:induction false} PlainNearer(s: State, c: CallId, pick: Key)
    requires c < |s.calls|
    requires var pc := s.calls[c].pc;
             pc.SwapLocked? || pc.DirtyBegin? || pc.Insert? || pc.Miss? || pc.RangePromote? || pc.Faulted?
    ensures StepCall(s, c, pick).calls[c].pc.Faulted? || Nearer(s, StepCall(s, c, pick), c)
  {
  }

  /** Every step of a call that the lock does not keep waiting brings it nearer to its end. */
  lemma {:induction false} StepNearer(s: State, c: CallId, pick: Key)
    requires Inv(s) && c < |s.calls| && LockIsOpen(s, c) && !Returned(s.calls[c].pc) && PickOk(s.calls[c].pc, pick)
    ensures var t := StepCall(s, c, pick);
            && Inv(t) && |t.calls| == |s.calls| && LockIsOpen(t, c) && Nearer(s, t, c)
            && t.calls[c].kind == s.calls[c].kind
            && (forall d :: 0 <= d < |s.calls| && d != c ==> t.calls[d] == s.calls[d])
  {
    var t, pc := StepCall(s, c, pick), s.calls[c].pc;
    StepCallKeeps(s, c, pick);
    assert MapInvariant.Local(s, c) && MapInvariant.Local(t, c);
    if pc.Try? || pc.TryCas? { EntryStepNearer(s, c, pick); }
    else if pc.DirtyLoop? || pc.DirtyProbe? || pc.DirtyCas? { ScanStepNearer(s, c, pick); }
    else if HoldsLock(pc) { OtherLockedNearer(s, c, pick); }
    else { FreeStepNearer(s, c, pick); }
  }

  lemma {:induction false} OtherLockedNearer(s: State, c: CallId, pick: Key)
    requires c < |s.calls| && MapInvariant.Local(s, c) && HoldsLock(s.calls[c].pc)
    requires !s.calls[c].pc.Try? && !s.calls[c].pc.TryCas?
    requires !s.calls[c].pc.DirtyLoop? && !s.calls[c].pc.DirtyProbe? && !s.calls[c].pc.DirtyCas?
    ensures StepCall(s, c, pick).calls[c].pc.Faulted? || Nearer(s, StepCall(s, c, pick), c)
  {
    if !s.calls[c].pc.Amend? { LockedStepNearer(s, c, pick); }
  }

  // ----- alone, and together

  /** The state after more actions. */
  function GoOn(s: State, more: seq<Action>): State {
    Fold(Next, s, more)
  }

  lemma {:induction false} RunIsFold(acts: seq<Action>)
    ensures Run(acts) == GoOn(INIT, acts)
  {
    if acts != [] { RunIsFold(acts[..|acts| - 1]); }
  }

  lemma {:induction false} RunGoesOn(acts: seq<Action>, more: seq<Action>)
    ensures Run(acts + more) == GoOn(Run(acts), more)
  {
    RunIsFold(acts);
    RunIsFold(acts + more);
    FoldJoins(Next, INIT, acts, more);
  }

  lemma {:induction false} GoOnJoins(s: State, a: seq<Action>, b: seq<Action>)
    ensures GoOn(s, a + b) == GoOn(GoOn(s, a), b)
  {
    FoldJoins(Next, s, a, b);
  }

  lemma {:induction false} GoOnOne(s: State, a: Action)
    ensures GoOn(s, [a]) == Next(s, a)
  {
    FoldMore(Next, s, [], a);
    assert [] + [a] == [a];
  }

  ghost predicate StepsOf(c: CallId, more: seq<Action>) {
    forall i :: 0 <= i < |more| ==> more[i].Step? && more[i].c == c
  }

  ghost predicate OnlySteps(more: seq<Action>) {
    forall i :: 0 <= i < |more| ==> more[i].Step?
  }

  /** Something to visit next. */
  ghost function PickFor(s: State, c: CallId): (pick: Key)
    requires c < |s.calls|
    ensures PickOk(s.calls[c].pc, pick)
  {
    match s.calls[c].pc
    case DirtyLoop(todo) => if todo == {} then s.calls[c].key else var j :| j in todo; j
    case RangeLoop(rest, _) => if rest == map[] then s.calls[c].key else var j :| j in rest; j
    case _ => s.calls[c].key
  }

  /** Call `c` has returned and the lock is free; the others are where they were. */
  ghost predicate HasReturned(s: State, t: State, c: CallId) {
    && c < |s.calls| == |t.calls| && Inv(t) && Returned(t.calls[c].pc) && t.mu.None?
    && forall d :: 0 <= d < |s.calls| && d != c ==> t.calls[d] == s.calls[d]
  }

  lemma {:induction false} StateReturnsAlone(s: State, c: CallId) returns (more: seq<Action>)
    requires Inv(s) && c < |s.calls| && LockIsOpen(s, c)
    ensures StepsOf(c, more) && HasReturned(s, GoOn(s, more), c)
    decreases if Returned(s.calls[c].pc) then 0 else 1, Stage(s.calls[c].kind, s.calls[c].pc), Within(s, s.calls[c].pc)
  {
    if Returned(s.calls[c].pc) {
      more := [];
    } else {
      var a := Step(c, PickFor(s, c));
      assert Next(s, a) == StepCall(s, c, a.pick);
      StepNearer(s, c, a.pick);
      var rest := StateReturnsAlone(Next(s, a), c);
      more := [a] + rest;
      GoOnOne(s, a);
      GoOnJoins(s, [a], rest);
    }
  }

  /** In every run, a call that finds the lock free, or holds it, returns when it alone takes enough steps. */
  lemma {:induction false} CallReturnsAlone(acts: seq<Action>, c: CallId) returns (more: seq<Action>)
    requires c < |Run(acts).calls| && LockIsOpen(Run(acts), c)
    ensures StepsOf(c, more) && HasReturned(Run(acts), Run(acts + more), c)
  {
    RunKeeps(acts);
    more := StateReturnsAlone(Run(acts), c);
    RunGoesOn(acts, more);
  }

  ghost predicate FirstReturned(s: State, n: nat) {
    && n <= |s.calls| && Inv(s) && s.mu.None?
    && forall c :: 0 <= c < n ==> Returned(s.calls[c].pc)
  }

  /** Whoever holds the lock can release it. */
  lemma {:induction false} LockIsReleased(s: State) returns (more: seq<Action>)
    requires Inv(s)
    ensures OnlySteps(more) && |GoOn(s, more).calls| == |s.calls| && FirstReturned(GoOn(s, more), 0)
  {
    if s.mu.None? { more := []; } else { more := StateReturnsAlone(s, s.mu.value); }
  }

  lemma {:induction false} FirstReturn(s: State, n: nat) returns (more: seq<Action>)
    requires Inv(s) && n <= |s.calls|
    ensures OnlySteps(more) && |GoOn(s, more).calls| == |s.calls| && FirstReturned(GoOn(s, more), n)
  {
    if n == 0 {
      more := LockIsReleased(s);
    } else {
      var first := FirstReturn(s, n - 1);
      var rest := StateReturnsAlone(GoOn(s, first), n - 1);
      more := first + rest;
      GoOnJoins(s, first, rest);
    }
  }

  /** No deadlock: from every state that a run reaches, steps of the calls in progress bring all of them to return. */
  lemma {:induction false} AllCallsCanReturn(acts: seq<Action>) returns (more: seq<Action>)
    ensures OnlySteps(more) && |Run(acts + more).calls| == |Run(acts).calls|
    ensures forall c :: 0 <= c < |Run(acts).calls| ==> Returned(Run(acts + more).calls[c].pc)
  {
    RunKeeps(acts);
    more := FirstReturn(Run(acts), |Run(acts).calls|);
    RunGoesOn(acts, more);
  }
}
