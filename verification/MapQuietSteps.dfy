/** The quiet steps, one by one. */
module MapQuietSteps {
  import opened Basics
  import opened MapSpec
  import opened MapMachine
  import opened MapInvariant
  import opened MapSteps
  import opened MapHistory
  import opened MapHistorySteps
  import opened MapLinear
  import opened MapQuiet

  /** A step that only moves its call, or the lock, on. */
  ghost predicate Moves(s: State, t: State, c: CallId) {
    && c < |s.calls| == |t.calls|
    && t.read == s.read && t.dirty == s.dirty && t.entries == s.entries
    && SameJob(s.calls[c], t.calls[c])
  }

  /** The facts about the grown history that every `Told` below starts from. */
  ghost predicate Grown(h: History, g: History, s: State, t: State, c: CallId) {
    && h.maps != [] && Grows(h, g, t) && c < |s.calls| == |t.calls| == |h.start|
    && h.start[c] < |h.maps| && h.maps[|h.maps| - 1] == Abs(s) && Abs(t) == Abs(s)
    && SameJob(s.calls[c], t.calls[c])
    && (c in g.lin <==> c in h.lin) && (c in h.lin ==> g.lin[c] == h.lin[c] && h.lin[c] < |h.maps| - 1)
    && (Returned(t.calls[c].pc) ==> c in g.end && g.end[c] == |h.maps|)
  }

  lemma {:induction false} MoveGrown(h: History, s: State, t: State, c: CallId)
    requires LogOk(h, s) && Moves(s, t, c) && !Returned(s.calls[c].pc)
    requires !Commits(h, s, c) && Victim(h, s, c).None?
    ensures Grown(h, NoteStep(h, s, t, c), s, t, c)
  {
    SharedQuiet(s, t);
    AbsSame(s, t);
    if c in h.lin { assert TakesEffect(h, s.calls, c); }
  }

  lemma {:induction false} MoveTells(h: History, s: State, t: State, c: CallId)
    requires Inv(s) && HInv(h, s) && Rely(s, t, c) && Moves(s, t, c) && !Returned(s.calls[c].pc)
    requires !Commits(h, s, c) && Victim(h, s, c).None? && KeepsClaim(s, t, c)
    requires Told(NoteStep(h, s, t, c), t, c)
    ensures HInv(NoteStep(h, s, t, c), t)
  {
    SharedQuiet(s, t);
    QuietTells(h, s, t, c);
  }

  // ----- the start

  lemma {:induction false} StartTold(h: History, g: History, s: State, t: State, c: CallId)
    requires Grown(h, g, s, t, c) && Tables(s, Busy(s), Building(s)) && Tables(t, Busy(t), Building(t))
    requires s.calls[c].pc == Start && t == Goto(s, c, FastLookup(s, c)) && c !in h.lin
    ensures Told(g, t, c)
  {
    var k, pc := s.calls[c].key, t.calls[c].pc;
    match pc
    case Try(e, _) =>
      assert Linked(t, e);
      LinkedWatched(g, t, h.start[c], e);
    case RangeLoop(_, _) => RangingStarts(g, t, h.start[c]);
    case Done(_) =>
      SeenNow(h, s, h.start[c], k);
      SeenGrows(h, g, h.start[c], |h.maps|, k, None);
    case _ =>
  }

  lemma {:induction false} StartTells(h: History, s: State, c: CallId)
    requires Inv(s) && HInv(h, s) && c < |s.calls| && s.calls[c].pc == Start
    ensures var t := Goto(s, c, FastLookup(s, c)); HInv(NoteStep(h, s, t, c), t)
  {
    var t := Goto(s, c, FastLookup(s, c));
    StartKeeps(s, c);
    assert Told(h, s, c);
    MoveGrown(h, s, t, c);
    StartTold(h, NoteStep(h, s, t, c), s, t, c);
    MoveTells(h, s, t, c);
  }

  lemma {:induction false} WaitTells(h: History, s: State, c: CallId)
    requires Inv(s) && HInv(h, s) && c < |s.calls| && s.calls[c].pc == Wait && s.mu.None?
    ensures var t := Goto(s.(mu := Some(c)), c, Locked); HInv(NoteStep(h, s, t, c), t)
  {
    var t := Goto(s.(mu := Some(c)), c, Locked);
    WaitKeeps(s, c);
    assert Told(h, s, c);
    MoveTells(h, s, t, c);
  }

  /** The entry that a lookup under the lock finds is linked. */
  lemma {:induction false} LockedLinks(s: State, t: State, c: CallId, e: EntryId, mode: Mode)
    requires Tables(s, Busy(s), Building(s)) && c < |s.calls| && t == Goto(s, c, LockedLookup(s, c))
    requires t.calls[c].pc == Unlock(Probe(e, mode)) || t.calls[c].pc == Try(e, mode)
    ensures Linked(t, e)
  {
  }

  /** What is known of that entry. */
  lemma {:induction false} LockedWatches(h: History, g: History, s: State, t: State, c: CallId, e: EntryId, mode: Mode)
    requires Grown(h, g, s, t, c) && Tables(s, Busy(s), Building(s)) && Tables(t, Busy(t), Building(t))
    requires s.calls[c].pc == Locked && t == Goto(s, c, LockedLookup(s, c)) && c !in h.lin
    requires t.calls[c].pc == Unlock(Probe(e, mode)) || t.calls[c].pc == Try(e, mode)
    ensures Told(g, t, c)
  {
    LockedLinks(s, t, c, e, mode);
    LinkedWatched(g, t, h.start[c], e);
  }

  lemma {:induction false} LockedTold(h: History, g: History, s: State, t: State, c: CallId)
    requires Grown(h, g, s, t, c) && Tables(s, Busy(s), Building(s)) && Tables(t, Busy(t), Building(t))
    requires s.calls[c].pc == Locked && t == Goto(s, c, LockedLookup(s, c)) && c !in h.lin
    ensures Told(g, t, c)
  {
    match t.calls[c].pc
    case Unlock(Probe(e, mode)) => LockedWatches(h, g, s, t, c, e, mode);
    case Unlock(Return(_)) => SeenNow(g, t, h.start[c], s.calls[c].key);
    case Unlock(Visit(_)) => RangingStarts(g, t, h.start[c]);
    case Try(e, mode) => LockedWatches(h, g, s, t, c, e, mode);
    case _ =>
  }

  lemma {:induction false} LockedTells(h: History, s: State, c: CallId)
    requires Inv(s) && HInv(h, s) && c < |s.calls| && s.calls[c].pc == Locked
    ensures var t := Goto(s, c, LockedLookup(s, c)); HInv(NoteStep(h, s, t, c), t)
  {
    var t := Goto(s, c, LockedLookup(s, c));
    LockedKeeps(s, c);
    assert Told(h, s, c);
    MoveGrown(h, s, t, c);
    LockedTold(h, NoteStep(h, s, t, c), s, t, c);
    MoveTells(h, s, t, c);
  }

  // ----- the entry loops

  /** Holding an entry, across a step that moves only this call. */
  lemma {:induction false} HoldsOn(h: History, g: History, s: State, t: State, c: CallId, e: EntryId, mode: Mode)
    requires Grown(h, g, s, t, c) && Moves(s, t, c) && g.owner == h.owner && g.lin == h.lin
    requires HoldsWatched(h, s, c, e, mode)
    ensures HoldsWatched(g, t, c, e, mode)
  {
    HoldsWatchedStable(h, g, s, t, c, e, mode);
  }

  /** An entry loop that ends without a write: the value it loaded answers the call. */
  lemma {:induction false} LoadSettles(h: History, g: History, s: State, t: State, c: CallId, e: EntryId, mode: Mode)
    requires Grown(h, g, s, t, c) && e < |s.entries|
    requires HoldsWatched(h, s, c, e, mode) && s.entries[e].key == s.calls[c].key
    requires !Writes(s.calls[c].kind, ValueOf(PtrOf(s, e)))
    requires mode.Own? ==> PtrOf(s, e).Nil?
    ensures Settled(g, t, c, ValueOf(PtrOf(s, e)), |h.maps|)
  {
    SeenGrows(h, g, h.start[c], |h.maps|, s.calls[c].key, ValueOf(PtrOf(s, e)));
  }

  lemma {:induction false} TryTold(h: History, g: History, s: State, t: State, c: CallId, e: EntryId, mode: Mode)
    requires Grown(h, g, s, t, c) && g.owner == h.owner && g.lin == h.lin
    requires Told(h, s, c) && Local(s, c)
    requires s.calls[c].pc == Try(e, mode) && t == DoTry(s, c, e, mode) && Local(t, c)
    ensures Told(g, t, c)
  {
    var v := ValueOf(PtrOf(s, e));
    if t.calls[c].pc.TryCas? {
      HoldsOn(h, g, s, t, c, e, mode);
    } else if !t.calls[c].pc.Wait? {
      LoadSettles(h, g, s, t, c, e, mode);
      SettledStable(g, g, t, t, c, v, |h.maps|, |g.maps|);
    }
  }

  lemma {:induction false} TryTells(h: History, s: State, c: CallId, e: EntryId, mode: Mode)
    requires Inv(s) && HInv(h, s) && c < |s.calls| && s.calls[c].pc == Try(e, mode)
    ensures var t := DoTry(s, c, e, mode); HInv(NoteStep(h, s, t, c), t)
  {
    var t := DoTry(s, c, e, mode);
    TryKeeps(s, c, e, mode);
    assert Told(h, s, c) && Local(s, c) && Local(t, c);
    MoveGrown(h, s, t, c);
    TryTold(h, NoteStep(h, s, t, c), s, t, c, e, mode);
    MoveTells(h, s, t, c);
  }

  lemma {:induction false} TryCasMissTold(h: History, s: State, t: State, c: CallId, e: EntryId, p: Ptr, mode: Mode)
    requires LogOk(h, s) && c < |s.calls| && s.calls[c].pc == TryCas(e, p, mode) && PtrOf(s, e) != p
    requires t == Goto(s, c, Try(e, mode)) && Told(h, s, c)
    ensures Told(NoteStep(h, s, t, c), t, c)
  {
    MoveGrown(h, s, t, c);
    HoldsOn(h, NoteStep(h, s, t, c), s, t, c, e, mode);
  }

  lemma {:induction false} TryCasMissTells(h: History, s: State, c: CallId, e: EntryId, p: Ptr, mode: Mode)
    requires Inv(s) && HInv(h, s) && c < |s.calls| && s.calls[c].pc == TryCas(e, p, mode) && PtrOf(s, e) != p
    ensures var t := DoTryCas(s, c, e, p, mode); HInv(NoteStep(h, s, t, c), t)
  {
    var t := DoTryCas(s, c, e, p, mode);
    TryCasMissKeeps(s, c, e, p, mode);
    assert Told(h, s, c);
    TryCasMissTold(h, s, t, c, e, p, mode);
    MoveTells(h, s, t, c);
  }

  // ----- unlocking and ranging

  lemma {:induction false} UnlockTold(h: History, g: History, s: State, t: State, c: CallId, after: After)
    requires Grown(h, g, s, t, c) && g.owner == h.owner && g.lin == h.lin && Told(h, s, c)
    requires s.calls[c].pc == Unlock(after) && t == DoUnlock(s, c, after)
    ensures Told(g, t, c)
  {
    match after
    case Return(r) => SettledStable(h, g, s, t, c, r, |h.maps|, |h.maps|);
    case Probe(e, mode) => HoldsOn(h, g, s, t, c, e, mode);
    case Visit(rest) => RangingStable(h, g, s, t, h.start[c], |h.maps|, |g.maps|, rest, map[]);
  }

  lemma {:induction false} UnlockTells(h: History, s: State, c: CallId, after: After)
    requires Inv(s) && HInv(h, s) && c < |s.calls| && s.calls[c].pc == Unlock(after)
    ensures var t := DoUnlock(s, c, after); HInv(NoteStep(h, s, t, c), t)
  {
    var t := DoUnlock(s, c, after);
    UnlockKeeps(s, c, after);
    assert Told(h, s, c);
    MoveGrown(h, s, t, c);
    UnlockTold(h, NoteStep(h, s, t, c), s, t, c, after);
    MoveTells(h, s, t, c);
  }

  /** A Range that visits an entry reports what it finds there, which was given since the Range began. */
  lemma {:induction false} VisitRanges(g: History, t: State, a: nat, b: nat, rest: map<Key, EntryId>, out: Table,
                                       pick: Key)
    requires Ranging(g, t, a, b, rest, out) && pick in rest && Filed(t, rest) && b == |g.maps|
    ensures var v := ValueOf(PtrOf(t, rest[pick]));
            Ranging(g, t, a, b, rest - {pick}, if v.Some? then out[pick := v.value] else out)
  {
    assert Watched(g, t, a, rest[pick]);
  }

  lemma {:induction false} RangeLoopTold(h: History, g: History, s: State, t: State, c: CallId,
                                         rest: map<Key, EntryId>, out: Table, pick: Key)
    requires Grown(h, g, s, t, c) && g.owner == h.owner && g.lin == h.lin && Told(h, s, c)
    requires s.calls[c].pc == RangeLoop(rest, out) && Filed(s, rest)
    requires rest == map[] || pick in rest
    requires t == DoRangeLoop(s, c, rest, out, pick)
    ensures Told(g, t, c)
  {
    var a := h.start[c];
    if rest == map[] {
      RangingStable(h, g, s, t, a, |h.maps|, |h.maps|, rest, out);
    } else {
      RangingStable(h, g, s, t, a, |h.maps|, |g.maps|, rest, out);
      VisitRanges(g, t, a, |g.maps|, rest, out, pick);
    }
  }

  lemma {:induction false} RangeLoopTells(h: History, s: State, c: CallId,
                                          rest: map<Key, EntryId>, out: Table, pick: Key)
    requires Inv(s) && HInv(h, s) && c < |s.calls| && s.calls[c].pc == RangeLoop(rest, out)
    requires rest == map[] || pick in rest
    ensures var t := DoRangeLoop(s, c, rest, out, pick); HInv(NoteStep(h, s, t, c), t)
  {
    var t := DoRangeLoop(s, c, rest, out, pick);
    RangeLoopKeeps(s, c, rest, out, pick);
    assert Told(h, s, c) && Local(s, c);
    MoveGrown(h, s, t, c);
    RangeLoopTold(h, NoteStep(h, s, t, c), s, t, c, rest, out, pick);
    MoveTells(h, s, t, c);
  }

  lemma {:induction false} DirtyLoopTells(h: History, s: State, c: CallId, todo: set<Key>, pick: Key)
    requires Inv(s) && HInv(h, s) && c < |s.calls| && s.calls[c].pc == DirtyLoop(todo)
    requires todo == {} || pick in todo
    ensures var t := DoDirtyLoop(s, c, todo, pick); HInv(NoteStep(h, s, t, c), t)
  {
    DirtyLoopKeeps(s, c, todo, pick);
    assert Told(h, s, c);
    MoveTells(h, s, DoDirtyLoop(s, c, todo, pick), c);
  }
}
