/** The history of a whole run, and when its calls begin and return. */
module MapRuns {
  import opened MapSpec
  import opened MapMachine
  import opened MapInvariant
  import opened MapSteps
  import opened MapHistory
  import opened MapHistorySteps
  import opened MapQuietSteps
  import opened MapTableSteps
  import opened MapWrites

  lemma {:induction false} FreeStepTells(h: History, s: State, c: CallId, pick: Key)
    requires Inv(s) && HInv(h, s) && c < |s.calls| && !HoldsLock(s.calls[c].pc)
    requires !s.calls[c].pc.Try? && !s.calls[c].pc.TryCas?
    ensures HInv(NoteStep(h, s, StepCall(s, c, pick), c), StepCall(s, c, pick))
  {
    match s.calls[c].pc
    case Start => StartTells(h, s, c);
    case Wait => if s.mu.None? { WaitTells(h, s, c); } else { IdleTells(h, s, c); }
    case RangeLoop(rest, out) =>
      if rest == map[] || pick in rest { RangeLoopTells(h, s, c, rest, out, pick); } else { IdleTells(h, s, c); }
    case Done(_) => IdleTells(h, s, c);
    case RangeDone(_) => IdleTells(h, s, c);
  }

  lemma {:induction false} IdleTells(h: History, s: State, c: CallId)
    requires HInv(h, s) && c < |s.calls| && Hits(s, c).None? && Unlinks(s, c).None?
    requires !s.calls[c].pc.SwapLocked? && !s.calls[c].pc.Insert?
    ensures HInv(NoteStep(h, s, s, c), s)
  {
    StutterTells(h, NoteStep(h, s, s, c), s);
  }

  lemma {:induction false} EntryStepTells(h: History, s: State, c: CallId, pick: Key)
    requires Inv(s) && HInv(h, s) && c < |s.calls| && (s.calls[c].pc.Try? || s.calls[c].pc.TryCas?)
    ensures HInv(NoteStep(h, s, StepCall(s, c, pick), c), StepCall(s, c, pick))
  {
    match s.calls[c].pc
    case Try(e, mode) => TryTells(h, s, c, e, mode);
    case TryCas(e, p, mode) =>
      if PtrOf(s, e) == p { TryCasHitTells(h, s, c, e, p, mode); } else { TryCasMissTells(h, s, c, e, p, mode); }
  }

  lemma {:induction false} AnyDirtyLoopTells(h: History, s: State, c: CallId, todo: set<Key>, pick: Key)
    requires Inv(s) && HInv(h, s) && c < |s.calls| && s.calls[c].pc == DirtyLoop(todo)
    ensures HInv(NoteStep(h, s, DoDirtyLoop(s, c, todo, pick), c), DoDirtyLoop(s, c, todo, pick))
  {
    if todo == {} || pick in todo { DirtyLoopTells(h, s, c, todo, pick); } else { IdleTells(h, s, c); }
  }

  lemma {:induction false} DirtyStepTells(h: History, s: State, c: CallId, pick: Key)
    requires Inv(s) && HInv(h, s) && c < |s.calls| && (BuildsDirty(s.calls[c].pc) || s.calls[c].pc.DirtyBegin?)
    ensures HInv(NoteStep(h, s, StepCall(s, c, pick), c), StepCall(s, c, pick))
  {
    match s.calls[c].pc
    case DirtyBegin =>
      assert StepCall(s, c, pick) == DoDirtyBegin(s, c);
      DirtyBeginTells(h, s, c);
    case DirtyLoop(todo) =>
      assert StepCall(s, c, pick) == DoDirtyLoop(s, c, todo, pick);
      AnyDirtyLoopTells(h, s, c, todo, pick);
    case DirtyProbe(todo, j) =>
      assert StepCall(s, c, pick) == DoDirtyProbe(s, c, todo, j);
      DirtyProbeTells(h, s, c, todo, j);
    case DirtyCas(todo, j) =>
      assert StepCall(s, c, pick) == DoDirtyCas(s, c, todo, j);
      DirtyCasTells(h, s, c, todo, j);
    case Amend =>
      assert StepCall(s, c, pick) == DoAmend(s, c);
      AmendTells(h, s, c);
  }

  lemma {:induction false} LockedStepTells(h: History, s: State, c: CallId, pick: Key)
    requires Inv(s) && HInv(h, s) && c < |s.calls| && HoldsLock(s.calls[c].pc) && !s.calls[c].pc.Try?
    requires !s.calls[c].pc.TryCas? && !BuildsDirty(s.calls[c].pc) && !s.calls[c].pc.DirtyBegin?
    requires !s.calls[c].pc.Faulted?
    ensures HInv(NoteStep(h, s, StepCall(s, c, pick), c), StepCall(s, c, pick))
  {
    match s.calls[c].pc
    case Locked => LockedTells(h, s, c);
    case Unexpunge(e) => UnexpungeTells(h, s, c, e);
    case Relink(e) => RelinkTells(h, s, c, e);
    case SwapLocked(e) => SwapLockedTells(h, s, c, e);
    case MissLookup =>
      if Unlinks(s, c).Some? && ValueOf(PtrOf(s, Unlinks(s, c).value)).Some? { UnlinkTells(h, s, c); }
      else { MissLookupTells(h, s, c); }
    case Insert => InsertTells(h, s, c);
    case Miss(r) => MissTells(h, s, c, r);
    case Unlock(after) => UnlockTells(h, s, c, after);
    case RangePromote => RangePromoteTells(h, s, c);
  }

  lemma {:induction false} StepCallTells(h: History, s: State, c: CallId, pick: Key)
    requires Inv(s) && HInv(h, s) && c < |s.calls|
    ensures HInv(NoteStep(h, s, StepCall(s, c, pick), c), StepCall(s, c, pick))
  {
    var pc := s.calls[c].pc;
    assert Local(s, c);
    if pc.Try? || pc.TryCas? { EntryStepTells(h, s, c, pick); }
    else if BuildsDirty(pc) || pc.DirtyBegin? { DirtyStepTells(h, s, c, pick); }
    else if HoldsLock(pc) { LockedStepTells(h, s, c, pick); }
    else { FreeStepTells(h, s, c, pick); }
  }

  lemma {:induction false} InvokeLog(h: History, s: State, t: State)
    requires LogOk(h, s) && |t.calls| == |s.calls| + 1 && t == s.(calls := t.calls)
    requires forall c :: 0 <= c < |s.calls| ==> t.calls[c] == s.calls[c]
    ensures LogOk(NoteInvoke(h, t), t)
  {
    var g := NoteInvoke(h, t);
    AbsSame(s, t);
    forall c | c in g.lin ensures TakesEffect(g, t.calls, c) {
      assert TakesEffect(h, s.calls, c);
    }
  }

  lemma {:induction false} InvokeTellsOther(h: History, s: State, t: State, c: CallId)
    requires h.maps != [] && c < |s.calls| == |h.start| && t == s.(calls := t.calls)
    requires |t.calls| == |s.calls| + 1 && t.calls[c] == s.calls[c] && h.start[c] < |h.maps|
    requires Told(h, s, c)
    ensures Told(NoteInvoke(h, t), t, c)
  {
    // The call list is cut back to its old length, where the other calls' rule applies.
    var cut := h.(maps := h.maps + [Abs(t)]);
    assert Abs(s) == Abs(t) by { AbsSame(s, t); }
    ToldStable(h, cut, s, s, c);
    InvokeWidens(cut, NoteInvoke(h, t), s, t, c);
  }

  lemma {:induction false} InvokeWidens(h: History, g: History, s: State, t: State, c: CallId)
    requires c < |s.calls| == |h.start| && t == s.(calls := t.calls) && |t.calls| == |g.start|
    requires c < |t.calls| && t.calls[c] == s.calls[c] && g.start[c] == h.start[c]
    requires g.maps == h.maps && g.lin == h.lin && g.end == h.end && g.owner == h.owner
    requires Told(h, s, c)
    ensures Told(g, t, c)
  {
    match s.calls[c].pc
    case Unlock(Visit(rest)) => RangingWidens(h, g, s, t, h.start[c], |h.maps|, rest, map[]);
    case RangeLoop(rest, out) => RangingWidens(h, g, s, t, h.start[c], |h.maps|, rest, out);
    case RangeDone(out) => RangingWidens(h, g, s, t, h.start[c], h.end[c], map[], out);
    case _ =>
  }

  lemma {:induction false} RangingWidens(h: History, g: History, s: State, t: State, a: nat, b: nat,
                                         rest: map<Key, EntryId>, out: Table)
    requires t == s.(calls := t.calls) && g.maps == h.maps && g.lin == h.lin && g.owner == h.owner
    requires Ranging(h, s, a, b, rest, out)
    ensures Ranging(g, t, a, b, rest, out)
  {
    assert forall k :: k in rest ==> Watched(h, s, a, rest[k]);
  }

  lemma {:induction false} InvokeTells(h: History, s: State, kind: Kind, key: Key, val: Val)
    requires HInv(h, s)
    ensures var t := Next(s, Invoke(kind, key, val)); HInv(NoteInvoke(h, t), t)
  {
    var t := Next(s, Invoke(kind, key, val));
    var g := NoteInvoke(h, t);
    assert forall c :: 0 <= c < |s.calls| ==> t.calls[c] == s.calls[c];
    InvokeLog(h, s, t);
    forall c | 0 <= c < |t.calls| ensures Told(g, t, c) {
      if c < |s.calls| {
        assert Told(h, s, c);
        InvokeTellsOther(h, s, t, c);
      }
    }
    assert forall e: EntryId :: Detached(t, e) ==> Detached(s, e);
  }

  /** The history of every run is in order. */
  lemma {:induction false} RunTells(acts: seq<Action>)
    ensures Inv(Run(acts)) && HInv(RunHistory(acts), Run(acts))
  {
    RunKeeps(acts);
    if acts != [] {
      var before, a := acts[..|acts| - 1], acts[|acts| - 1];
      var h, s := RunHistory(before), Run(before);
      RunTells(before);
      match a
      case Invoke(kind, key, val) => InvokeTells(h, s, kind, key, val);
      case Step(c, pick) =>
        if c < |s.calls| { StepCallTells(h, s, c, pick); }
        else { StutterTells(h, Note(h, s, a), s); }
    }
  }

  // ----- begin and return

  lemma {:induction false} NoteStepTimes(h: History, s: State, t: State, c: CallId)
    requires Ended(h, s) && h.maps != [] && c < |s.calls| == |t.calls|
    ensures var g := NoteStep(h, s, t, c);
            g.start == h.start && forall d :: d in h.end ==> d in g.end && g.end[d] == h.end[d]
  {
  }

  /** One action extends the history and forgets nothing of when calls began and returned. */
  lemma {:induction false} NoteTimes(h: History, s: State, a: Action)
    requires Ended(h, s) && h.maps != []
    ensures var g := Note(h, s, a);
            && g.start == (if a.Invoke? then h.start + [|h.maps|] else h.start)
            && (forall c :: c in h.end ==> c in g.end && g.end[c] == h.end[c])
  {
    match a
    case Invoke(_, _, _) =>
    case Step(c, _) => if c < |s.calls| { NoteStepTimes(h, s, Next(s, a), c); }
  }

  /** A call that an action makes begins after it. */
  lemma {:induction false} NewCallBegins(h: History, s: State, a: Action, c: CallId)
    requires h.maps != [] && |h.start| == |s.calls| && |s.calls| <= c < |Next(s, a).calls|
    ensures c < |Note(h, s, a).start| && Note(h, s, a).start[c] == |h.maps|
  {
  }

  /** A call that exists only after action `i` began after it. */
  lemma {:induction false} BeganAfter(acts: seq<Action>, i: nat, c: CallId)
    requires i <= |acts| && |Run(acts[..i]).calls| <= c < |Run(acts).calls|
    ensures c < |RunHistory(acts).start| && RunHistory(acts).start[c] > i
  {
    assert acts[..|acts|] == acts;
    if i < |acts| {
      var before, a := acts[..|acts| - 1], acts[|acts| - 1];
      var h, s := RunHistory(before), Run(before);
      RunTells(before);
      MapsCount(before);
      assert before[..i] == acts[..i];
      if c < |s.calls| {
        BeganAfter(before, i, c);
        NoteTimes(h, s, a);
      } else {
        NewCallBegins(h, s, a, c);
      }
    }
  }

  lemma {:induction false} MapsCount(acts: seq<Action>)
    ensures |RunHistory(acts).maps| == |acts| + 1
  {
    if acts != [] { MapsCount(acts[..|acts| - 1]); }
  }

  /** A call that has returned after action `i` is recorded as returned by then. */
  lemma {:induction false} EndedBy(acts: seq<Action>, i: nat, c: CallId)
    requires i <= |acts| && c < |Run(acts[..i]).calls| && Returned(Run(acts[..i]).calls[c].pc)
    ensures c in RunHistory(acts).end && RunHistory(acts).end[c] <= i
  {
    if i == |acts| {
      assert acts[..i] == acts;
      RunTells(acts);
      MapsCount(acts);
      assert Told(RunHistory(acts), Run(acts), c);
    } else {
      var before := acts[..|acts| - 1];
      assert before[..i] == acts[..i];
      EndedBy(before, i, c);
      RunTells(before);
      NoteTimes(RunHistory(before), Run(before), acts[|acts| - 1]);
    }
  }
}
