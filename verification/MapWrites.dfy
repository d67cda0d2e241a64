/** The steps of the concurrent map at which a call takes effect, and the end of a LoadAndDelete. */
module MapWrites {
  import opened Basics
  import opened MapSpec
  import opened MapMachine
  import opened MapInvariant
  import opened MapSteps
  import opened MapHistory
  import opened MapHistorySteps
  import opened MapLinear
  import opened MapTableSteps

  /** The abstract effect of call `c` between `s` and `t`. */
  ghost predicate Effect(s: State, t: State, c: CallId)
    requires c < |s.calls|
  {
    var call := s.calls[c];
    && Writes(call.kind, At(s, call.key))
    && At(t, call.key) == (if Deletes(call.kind) then None else Some(Cell(c, call.val)))
    && forall k :: k != call.key ==> At(t, k) == At(s, k)
  }

  /** A write that has just taken effect settles its call. */
  lemma {:induction false} CommitSettles(h: History, g: History, s: State, t: State, c: CallId, r: Option<Cell>)
    requires LogOk(h, s) && c < |s.calls| == |t.calls| && SameJob(s.calls[c], t.calls[c])
    requires Grows(h, g, t) && c in g.lin && g.lin[c] == |h.writer|
    requires r == At(s, s.calls[c].key) && Writes(s.calls[c].kind, r)
    ensures Settled(g, t, c, r, |h.maps|)
  {
    AbsGet(s, s.calls[c].key);
    assert g.maps[|h.writer|] == h.maps[|h.writer|];
  }

  lemma {:induction false} CommitTells(h: History, s: State, t: State, c: CallId)
    requires Inv(s) && HInv(h, s) && Rely(s, t, c) && !Returned(s.calls[c].pc)
    requires forall d :: 0 <= d < |s.calls| ==> SameJob(s.calls[d], t.calls[d])
    requires Commits(h, s, c) && Victim(h, s, c).None? && c !in h.lin
    requires Effect(s, t, c)
    requires SparesOthers(h, s, t, c)
    requires forall e: EntryId :: e < |s.entries| ==> EntryRely(h, NoteStep(h, s, t, c), s, t, e)
    requires Claimed(NoteStep(h, s, t, c), t)
    requires Told(NoteStep(h, s, t, c), t, c)
    ensures HInv(NoteStep(h, s, t, c), t)
  {
    AbsApply(s, t, c);
    AbsGet(s, s.calls[c].key);
    LogCommit(h, NoteStep(h, s, t, c), s, t, c);
    StepTells(h, s, t, c);
  }

  // ----- writing a linked entry

  /** Writing pointer `p` into a linked entry. */
  lemma {:induction false} EntryEffect(s: State, t: State, c: CallId, e: EntryId, p: Ptr)
    requires Tables(s, Busy(s), Building(s)) && c < |s.calls|
    requires Linked(s, e) && s.entries[e].key == s.calls[c].key && p == NewPtr(s, c)
    requires t.read == s.read && t.dirty == s.dirty && t.entries == SetPtr(s, e, p).entries
    requires Writes(s.calls[c].kind, ValueOf(PtrOf(s, e)))
    ensures Effect(s, t, c) && At(s, s.calls[c].key) == ValueOf(PtrOf(s, e))
  {
    LinkedOrDetached(s, e);
    forall k | k != s.calls[c].key ensures At(t, k) == At(s, k) {
    }
  }

  lemma {:induction false} EntryWriteRely(h: History, g: History, s: State, t: State, c: CallId, e: EntryId, p: Ptr)
    requires h.maps != [] && c !in h.lin && Tables(s, Busy(s), Building(s)) && c < |s.calls| == |t.calls|
    requires Linked(s, e) && t.read == s.read && t.dirty == s.dirty && t.entries == SetPtr(s, e, p).entries
    requires !Detached(s, e)
    requires Unlinks(s, c).None? && Victim(h, s, c).None? && g == NoteStep(h, s, t, c)
    ensures forall j: EntryId :: j < |s.entries| ==> EntryRely(h, g, s, t, j)
    ensures SparesOthers(h, s, t, c)
  {
    forall j: EntryId | j < |s.entries| ensures EntryRely(h, g, s, t, j) {
      assert Linked(t, j) <==> Linked(s, j);
    }
  }

  lemma {:induction false} EntryWriteClaimed(h: History, g: History, s: State, t: State, c: CallId, e: EntryId, p: Ptr)
    requires h.maps != [] && Claimed(h, s) && c < |s.calls| == |t.calls|
    requires forall d :: 0 <= d < |s.calls| && d != c ==> t.calls[d] == s.calls[d]
    requires Linked(s, e) && t.read == s.read && t.dirty == s.dirty && t.entries == SetPtr(s, e, p).entries
    requires Owned(s.calls[c].pc).None? && Unlinks(s, c).None? && g == NoteStep(h, s, t, c)
    ensures Claimed(g, t)
  {
    forall j: EntryId | Detached(t, j) && PtrOf(t, j).Live?
      ensures j in g.owner && g.owner[j] < |t.calls| && Owned(t.calls[g.owner[j]].pc) == Some(j)
    {
      assert j != e && Detached(s, j);
    }
  }

  /** What writing a linked entry leaves of the promises to every call. */
  lemma {:induction false} EntryWriteSettles(h: History, s: State, t: State, c: CallId, e: EntryId, pc: Pc)
    requires LogOk(h, s) && Claimed(h, s) && Tables(s, Busy(s), Building(s)) && c < |s.calls|
    requires c !in h.lin && Linked(s, e) && !Detached(s, e) && s.entries[e].key == s.calls[c].key
    requires Owned(s.calls[c].pc).None? && Unlinks(s, c).None? && Victim(h, s, c).None? && Commits(h, s, c)
    requires var r := ValueOf(PtrOf(s, e));
             pc in {Miss(r), Unlock(Return(r))} || (pc == Done(r) && !Returned(s.calls[c].pc))
    requires Writes(s.calls[c].kind, ValueOf(PtrOf(s, e))) && At(s, s.calls[c].key) == ValueOf(PtrOf(s, e))
    requires t == Goto(SetPtr(s, e, NewPtr(s, c)), c, pc)
    ensures Claimed(NoteStep(h, s, t, c), t) && Told(NoteStep(h, s, t, c), t, c) && SparesOthers(h, s, t, c)
    ensures forall j: EntryId :: j < |s.entries| ==> EntryRely(h, NoteStep(h, s, t, c), s, t, j)
  {
    var g, r := NoteStep(h, s, t, c), ValueOf(PtrOf(s, e));
    EntryWriteRely(h, g, s, t, c, e, NewPtr(s, c));
    EntryWriteClaimed(h, g, s, t, c, e, NewPtr(s, c));
    CommitSettles(h, g, s, t, c, r);
    SettledStable(g, g, t, t, c, r, |h.maps|, |g.maps|);
  }

  lemma {:induction false} EntryWriteTells(h: History, s: State, c: CallId, e: EntryId, pc: Pc)
    requires Inv(s) && HInv(h, s) && c < |s.calls| && c !in h.lin && Linked(s, e)
    requires s.entries[e].key == s.calls[c].key && Owned(s.calls[c].pc).None? && !Returned(s.calls[c].pc)
    requires Writes(s.calls[c].kind, ValueOf(PtrOf(s, e)))
    requires s.calls[c].pc.SwapLocked? || Hits(s, c) == Some(e)
    requires var r := ValueOf(PtrOf(s, e)); pc in {Done(r), Miss(r), Unlock(Return(r))}
    requires Rely(s, Goto(SetPtr(s, e, NewPtr(s, c)), c, pc), c)
    ensures var t := Goto(SetPtr(s, e, NewPtr(s, c)), c, pc); HInv(NoteStep(h, s, t, c), t)
  {
    var t := Goto(SetPtr(s, e, NewPtr(s, c)), c, pc);
    LinkedOrDetached(s, e);
    EntryEffect(s, t, c, e, NewPtr(s, c));
    EntryWriteSettles(h, s, t, c, e, pc);
    CommitTells(h, s, t, c);
  }

  lemma {:induction false} SwapLockedTells(h: History, s: State, c: CallId, e: EntryId)
    requires Inv(s) && HInv(h, s) && c < |s.calls| && s.calls[c].pc == SwapLocked(e)
    ensures var t := DoSwapLocked(s, c, e); HInv(NoteStep(h, s, t, c), t)
  {
    assert Local(s, c) && Told(h, s, c);
    SwapLockedKeeps(s, c, e);
    EntryWriteTells(h, s, c, e, Unlock(Return(ValueOf(PtrOf(s, e)))));
  }

  // ----- a new entry

  lemma {:induction false} InsertEffect(s: State, c: CallId)
    requires c < |s.calls| && Filed(s, s.read.m) && Filed(s, DirtyTable(s))
    requires Inserts(s.calls[c].kind) && s.dirty.Some? && s.read.amended
    requires s.calls[c].key !in s.read.m && s.calls[c].key !in s.dirty.value
    ensures Effect(s, DoInsert(s, c), c) && At(s, s.calls[c].key) == None
  {
    var t := DoInsert(s, c);
    forall k | k != s.calls[c].key ensures At(t, k) == At(s, k) {
    }
  }

  lemma {:induction false} InsertRely(h: History, g: History, s: State, c: CallId)
    requires h.maps != [] && c !in h.lin && c < |s.calls| && s.calls[c].pc == Insert
    requires Filed(s, s.read.m) && Filed(s, DirtyTable(s))
    requires s.dirty.Some? && s.read.amended
    requires s.calls[c].key !in s.read.m && s.calls[c].key !in s.dirty.value
    requires g == NoteStep(h, s, DoInsert(s, c), c)
    ensures forall j: EntryId :: j < |s.entries| ==> EntryRely(h, g, s, DoInsert(s, c), j)
    ensures SparesOthers(h, s, DoInsert(s, c), c)
    ensures Claimed(h, s) ==> Claimed(g, DoInsert(s, c))
  {
    var t := DoInsert(s, c);
    forall j: EntryId | j < |s.entries| ensures EntryRely(h, g, s, t, j) && (Detached(t, j) ==> Detached(s, j)) {
      assert InRead(t, j) <==> InRead(s, j);
      assert InDirty(t, j) <==> InDirty(s, j);
    }
    assert InDirty(t, |s.entries|);
  }

  lemma {:induction false} InsertTells(h: History, s: State, c: CallId)
    requires Inv(s) && HInv(h, s) && c < |s.calls| && s.calls[c].pc == Insert
    ensures var t := DoInsert(s, c); HInv(NoteStep(h, s, t, c), t)
  {
    var t := DoInsert(s, c);
    var g := NoteStep(h, s, t, c);
    assert Local(s, c) && Told(h, s, c);
    InsertKeeps(s, c);
    InsertEffect(s, c);
    InsertRely(h, g, s, c);
    CommitSettles(h, g, s, t, c, None);
    SettledStable(g, g, t, t, c, None, |h.maps|, |g.maps|);
    CommitTells(h, s, t, c);
  }

  // ----- LoadAndDelete unlinks an entry of dirty

  lemma {:induction false} UnlinkEffect(s: State, c: CallId)
    requires Tables(s, {}, false) && c < |s.calls| && Local(s, c) && s.calls[c].pc == MissLookup
    requires Unlinks(s, c).Some? && ValueOf(PtrOf(s, Unlinks(s, c).value)).Some?
    ensures Effect(s, DoMissLookup(s, c), c)
    ensures At(s, s.calls[c].key) == ValueOf(PtrOf(s, Unlinks(s, c).value))
  {
    var t, key := DoMissLookup(s, c), s.calls[c].key;
    forall k | k != key ensures At(t, k) == At(s, k) {
      if k in s.read.m { assert Agrees(s, k, {}); }
    }
    MissLookupLeavesNothing(s, c);
  }

  /** Unlinking moves the entry out of the tables, and otherwise only empty entries can go. */
  lemma {:induction false} UnlinkMoves(s: State, c: CallId, j: EntryId)
    requires Tables(s, {}, false) && c < |s.calls| && s.calls[c].key !in s.read.m && s.read.amended
    requires s.calls[c].pc == MissLookup && Unlinks(s, c).Some? && j < |s.entries|
    ensures var t := DoMissLookup(s, c);
            && t.entries == s.entries
            && (Linked(s, j) ==> Linked(t, j) || Unlinks(s, c) == Some(j) || ValueOf(PtrOf(s, j)).None?)
            && (Detached(t, j) && PtrOf(s, j).Live? ==> Detached(s, j) || Unlinks(s, c) == Some(j))
  {
    var k := s.entries[j].key;
    if k in s.read.m { assert Agrees(s, k, {}); }
  }

  lemma {:induction false} UnlinkRely(h: History, g: History, s: State, t: State, c: CallId, j: EntryId)
    requires h.maps != [] && c !in h.lin && c < |s.calls| == |t.calls| && j < |s.entries|
    requires Unlinks(s, c).Some? && ValueOf(PtrOf(s, Unlinks(s, c).value)).Some? && g == NoteStep(h, s, t, c)
    requires Victim(h, s, c).None? && t.entries == s.entries
    requires Unlinks(s, c) == Some(j) ==> At(t, s.entries[j].key).None?
    requires Linked(s, j) ==> Linked(t, j) || Unlinks(s, c) == Some(j) || ValueOf(PtrOf(s, j)).None?
    requires Detached(t, j) && PtrOf(s, j).Live? ==> Detached(s, j) || Unlinks(s, c) == Some(j)
    ensures EntryRely(h, g, s, t, j)
  {
  }

  lemma {:induction false} UnlinkEntry(h: History, g: History, s: State, c: CallId, j: EntryId)
    requires Tables(s, {}, false) && c < |s.calls| && s.calls[c].key !in s.read.m && s.read.amended
    requires s.calls[c].pc == MissLookup && h.maps != [] && c !in h.lin && j < |s.entries|
    requires Unlinks(s, c).Some? && ValueOf(PtrOf(s, Unlinks(s, c).value)).Some?
    requires g == NoteStep(h, s, DoMissLookup(s, c), c)
    ensures EntryRely(h, g, s, DoMissLookup(s, c), j)
    ensures Detached(DoMissLookup(s, c), j) && PtrOf(s, j).Live? ==> Detached(s, j) || Unlinks(s, c) == Some(j)
  {
    UnlinkMoves(s, c, j);
    MissLookupLeavesNothing(s, c);
    UnlinkRely(h, g, s, DoMissLookup(s, c), c, j);
  }

  /** Of the live entries, only `e` leaves the tables. */
  ghost predicate DetachesOnly(s: State, t: State, e: EntryId) {
    forall j: EntryId :: Detached(t, j) && PtrOf(s, j).Live? ==> Detached(s, j) || j == e
  }

  lemma {:induction false} UnlinkClaimed(h: History, g: History, s: State, t: State, c: CallId, e: EntryId)
    requires Claimed(h, s) && c < |s.calls| == |t.calls|
    requires Owned(s.calls[c].pc).None? && Owned(t.calls[c].pc) == Some(e)
    requires forall d :: 0 <= d < |s.calls| && d != c ==> t.calls[d] == s.calls[d]
    requires t.entries == s.entries && !Detached(s, e) && g.owner == h.owner[e := c]
    requires DetachesOnly(s, t, e)
    ensures Claimed(g, t)
  {
  }

  lemma {:induction false} UnlinkSpares(h: History, s: State, c: CallId)
    requires h.maps != [] && c < |s.calls| && s.calls[c].pc == MissLookup
    requires Filed(s, DirtyTable(s)) && Unlinks(s, c).Some?
    ensures SparesOthers(h, s, DoMissLookup(s, c), c)
  {
    assert InDirty(s, Unlinks(s, c).value);
  }

  /** The unlinked entry is claimed by the call that unlinks it. */
  lemma {:induction false} UnlinkClaims(h: History, s: State, c: CallId)
    requires |h.maps| == |h.writer| + 1 && Claimed(h, s) && c < |s.calls| && s.calls[c].pc == MissLookup
    requires Filed(s, DirtyTable(s)) && Unlinks(s, c).Some? && ValueOf(PtrOf(s, Unlinks(s, c).value)).Some?
    requires DetachesOnly(s, DoMissLookup(s, c), Unlinks(s, c).value)
    ensures Claimed(NoteStep(h, s, DoMissLookup(s, c), c), DoMissLookup(s, c))
  {
    var t, e := DoMissLookup(s, c), Unlinks(s, c).value;
    assert InDirty(s, e);
    assert t.entries == s.entries && Owned(t.calls[c].pc) == Some(e);
    UnlinkNote(h, s, t, c);
    UnlinkClaimed(h, NoteStep(h, s, t, c), s, t, c, e);
  }

  lemma {:induction false} UnlinkNote(h: History, s: State, t: State, c: CallId)
    requires |h.maps| == |h.writer| + 1 && c < |s.calls| == |t.calls| && s.calls[c].pc == MissLookup
    requires Unlinks(s, c).Some? && ValueOf(PtrOf(s, Unlinks(s, c).value)).Some?
    ensures var g := NoteStep(h, s, t, c);
            && Grows(h, g, t) && g.lin == h.lin[c := |h.writer|] && g.owner == h.owner[Unlinks(s, c).value := c]
  {
    assert Hits(s, c).None? && Victim(h, s, c).None?;
  }

  /** A LoadAndDelete that has just unlinked `e` knows what it found there. */
  lemma {:induction false} UnlinkedNow(g: History, t: State, c: CallId, e: EntryId)
    requires c < |t.calls| == |g.start| && e < |t.entries| && t.calls[c].pc == Unlock(Probe(e, Own))
    requires e in g.owner && g.owner[e] == c && PtrOf(t, e).Live? && Seen(g, g.start[c], |g.maps|, t.calls[c].key, None)
    requires c in g.lin && g.lin[c] < |g.maps| && Get(g.maps[g.lin[c]], t.calls[c].key) == ValueOf(PtrOf(t, e))
    ensures Told(g, t, c)
  {
    assert Unlinked(g, t, c, e);
  }

  lemma {:induction false} UnlinkShape(s: State, c: CallId)
    requires c < |s.calls| && s.calls[c].pc == MissLookup && Unlinks(s, c).Some?
    ensures var t := DoMissLookup(s, c);
            && t.calls[c].pc == Unlock(Probe(Unlinks(s, c).value, Own)) && t.calls[c].key == s.calls[c].key
            && t.entries == s.entries && |t.calls| == |s.calls|
  {
  }

  lemma {:induction false} UnlinkTold(h: History, g: History, s: State, t: State, c: CallId, e: EntryId)
    requires LogOk(h, s) && c < |s.calls| == |t.calls| && t.calls[c].key == s.calls[c].key && t.entries == s.entries
    requires e < |s.entries| && PtrOf(s, e).Live? && t.calls[c].pc == Unlock(Probe(e, Own))
    requires At(s, s.calls[c].key) == ValueOf(PtrOf(s, e)) && At(t, s.calls[c].key).None?
    requires Grows(h, g, t) && g.lin == h.lin[c := |h.writer|] && g.owner == h.owner[e := c]
    ensures Told(g, t, c)
  {
    AbsGet(s, s.calls[c].key);
    SeenNow(g, t, h.start[c], s.calls[c].key);
    assert g.maps[|h.writer|] == h.maps[|h.writer|];
    UnlinkedNow(g, t, c, e);
  }

  /** What the unlinking step does to the entries, and to what the others are promised about them. */
  lemma {:induction false} UnlinkRelies(h: History, g: History, s: State, c: CallId)
    requires Inv(s) && HInv(h, s) && c < |s.calls| && s.calls[c].pc == MissLookup
    requires Unlinks(s, c).Some? && ValueOf(PtrOf(s, Unlinks(s, c).value)).Some?
    requires g == NoteStep(h, s, DoMissLookup(s, c), c)
    ensures forall j: EntryId :: j < |s.entries| ==> EntryRely(h, g, s, DoMissLookup(s, c), j)
    ensures Claimed(g, DoMissLookup(s, c)) && SparesOthers(h, s, DoMissLookup(s, c), c)
  {
    var t := DoMissLookup(s, c);
    assert Local(s, c) && Told(h, s, c);
    forall j: EntryId | j < |s.entries|
      ensures EntryRely(h, g, s, t, j)
      ensures Detached(t, j) && PtrOf(s, j).Live? ==> Detached(s, j) || Unlinks(s, c) == Some(j)
    {
      UnlinkEntry(h, g, s, c, j);
    }
    assert DetachesOnly(s, t, Unlinks(s, c).value);
    UnlinkClaims(h, s, c);
    UnlinkSpares(h, s, c);
  }

  lemma {:induction false} UnlinkReady(h: History, s: State, t: State, c: CallId)
    requires Inv(s) && HInv(h, s) && c < |s.calls| && s.calls[c].pc == MissLookup && t == DoMissLookup(s, c)
    requires Unlinks(s, c).Some? && ValueOf(PtrOf(s, Unlinks(s, c).value)).Some?
    ensures Commits(h, s, c) && Victim(h, s, c).None? && c !in h.lin && Effect(s, t, c) && SparesOthers(h, s, t, c)
    ensures Claimed(NoteStep(h, s, t, c), t) && Told(NoteStep(h, s, t, c), t, c)
    ensures forall j: EntryId :: j < |s.entries| ==> EntryRely(h, NoteStep(h, s, t, c), s, t, j)
  {
    var g := NoteStep(h, s, t, c);
    assert Local(s, c) && Told(h, s, c) && s.mu == Some(c);
    UnlinkEffect(s, c);
    UnlinkRelies(h, g, s, c);
    UnlinkNote(h, s, t, c);
    UnlinkShape(s, c);
    MissLookupLeavesNothing(s, c);
    UnlinkTold(h, g, s, t, c, Unlinks(s, c).value);
  }

  lemma {:induction false} UnlinkTells(h: History, s: State, c: CallId)
    requires Inv(s) && HInv(h, s) && c < |s.calls| && s.calls[c].pc == MissLookup
    requires Unlinks(s, c).Some? && ValueOf(PtrOf(s, Unlinks(s, c).value)).Some?
    ensures HInv(NoteStep(h, s, DoMissLookup(s, c), c), DoMissLookup(s, c))
  {
    UnlinkReady(h, s, DoMissLookup(s, c), c);
    MissLookupKeeps(s, c);
    CommitTells(h, s, DoMissLookup(s, c), c);
  }

  // ----- LoadAndDelete empties the entry it unlinked

  /** Emptying a detached entry shows in no lookup. */
  lemma {:induction false} DetachedInvisible(s: State, t: State, e: EntryId, p: Ptr)
    requires Filed(s, s.read.m) && Filed(s, DirtyTable(s)) && Detached(s, e)
    requires t.read == s.read && t.dirty == s.dirty && t.entries == SetPtr(s, e, p).entries
    ensures Abs(t) == Abs(s)
  {
    forall k ensures At(t, k) == At(s, k) {
    }
    AbsSame(s, t);
  }

  /** Emptying the unlinked entry `e` disturbs no other call, and leaves nothing there to claim. */
  lemma {:induction false} EmptyRely(h: History, g: History, s: State, t: State, c: CallId, e: EntryId)
    requires h.maps != [] && Claimed(h, s) && c < |s.calls| == |t.calls| && Detached(s, e)
    requires t.read == s.read && t.dirty == s.dirty && t.entries == SetPtr(s, e, Nil).entries
    requires forall d :: 0 <= d < |s.calls| && d != c ==> t.calls[d] == s.calls[d]
    requires Owned(s.calls[c].pc) in {None, Some(e)}
    requires g.owner == h.owner
    requires forall d :: d in h.lin && d != c ==>
               (d in g.lin && g.lin[d] == h.lin[d]) || (d < |s.calls| && Owned(s.calls[d].pc) == Some(e))
    ensures forall j: EntryId :: j < |s.entries| ==> EntryRely(h, g, s, t, j)
    ensures Claimed(g, t)
  {
    forall j: EntryId | j < |s.entries| ensures EntryRely(h, g, s, t, j) {
      assert Linked(t, j) <==> Linked(s, j);
      assert Detached(t, j) ==> Detached(s, j);
    }
    forall j: EntryId | Detached(t, j) && PtrOf(t, j).Live?
      ensures j in g.owner && g.owner[j] < |t.calls| && Owned(t.calls[g.owner[j]].pc) == Some(j)
    {
      assert j != e && Detached(s, j);
    }
  }

  lemma {:induction false} OwnNote(h: History, s: State, t: State, c: CallId, e: EntryId, p: Ptr)
    requires h.maps != [] && c < |s.calls| == |t.calls| && s.calls[c].pc == TryCas(e, p, Own)
    requires t == DoTryCas(s, c, e, p, Own) && PtrOf(s, e) == p
    ensures var g := NoteStep(h, s, t, c);
            && Grows(h, g, t) && g.writer == h.writer + [None] && g.lin == h.lin && g.owner == h.owner
            && g.end == h.end[c := |h.maps|]
  {
  }

  lemma {:induction false} OwnTold(h: History, g: History, s: State, t: State, c: CallId, e: EntryId, p: Ptr)
    requires |h.maps| == |h.writer| + 1 && c < |s.calls| == |t.calls| == |h.start| && Told(h, s, c)
    requires c in h.lin ==> TakesEffect(h, s.calls, c)
    requires s.calls[c].pc == TryCas(e, p, Own) && PtrOf(s, e) == p && p.Live? && s.calls[c].kind.LoadAndDelete?
    requires t == DoTryCas(s, c, e, p, Own)
    requires Grows(h, g, t) && g.lin == h.lin && g.end == h.end[c := |h.maps|]
    ensures Told(g, t, c)
  {
    assert Unlinked(h, s, c, e);
    assert g.maps[h.lin[c]] == h.maps[h.lin[c]];
  }

  lemma {:induction false} EmptySpares(h: History, s: State, t: State, c: CallId, e: EntryId)
    requires c < |s.calls| && t.entries == SetPtr(s, e, Nil).entries
    requires e in h.owner && (h.owner[e] == c || Victim(h, s, c) == Some(h.owner[e]))
    ensures SparesOthers(h, s, t, c)
  {
  }

  lemma {:induction false} OwnHistory(h: History, s: State, t: State, c: CallId, e: EntryId, p: Ptr)
    requires LogOk(h, s) && Claimed(h, s) && Filed(s, s.read.m) && Filed(s, DirtyTable(s))
    requires c < |s.calls| && s.calls[c].pc == TryCas(e, p, Own) && PtrOf(s, e) == p && Detached(s, e)
    requires Told(h, s, c) && p.Live? && s.calls[c].kind.LoadAndDelete?
    requires t == DoTryCas(s, c, e, p, Own)
    ensures LogOk(NoteStep(h, s, t, c), t) && Claimed(NoteStep(h, s, t, c), t) && Told(NoteStep(h, s, t, c), t, c)
    ensures forall j: EntryId :: j < |s.entries| ==> EntryRely(h, NoteStep(h, s, t, c), s, t, j)
    ensures SparesOthers(h, s, t, c)
  {
    var g := NoteStep(h, s, t, c);
    OwnNote(h, s, t, c, e, p);
    DetachedInvisible(s, t, e, Nil);
    LogSilent(h, g, s, t);
    EmptyRely(h, g, s, t, c, e);
    OwnTold(h, g, s, t, c, e, p);
    EmptySpares(h, s, t, c, e);
  }

  /** What a LoadAndDelete knows when it is about to empty the entry it has unlinked. */
  lemma {:induction false} OwnFacts(h: History, s: State, c: CallId, e: EntryId, p: Ptr)
    requires c < |s.calls| && Local(s, c) && s.calls[c].pc == TryCas(e, p, Own) && PtrOf(s, e) == p
    ensures Detached(s, e) && p.Live? && s.calls[c].kind.LoadAndDelete? && Victim(h, s, c).None?
  {
  }

  lemma {:induction false} OwnReady(h: History, s: State, t: State, c: CallId, e: EntryId, p: Ptr)
    requires Inv(s) && HInv(h, s) && c < |s.calls| && s.calls[c].pc == TryCas(e, p, Own) && PtrOf(s, e) == p
    requires t == DoTryCas(s, c, e, p, Own)
    ensures LogOk(NoteStep(h, s, t, c), t) && Claimed(NoteStep(h, s, t, c), t) && Told(NoteStep(h, s, t, c), t, c)
    ensures forall j: EntryId :: j < |s.entries| ==> EntryRely(h, NoteStep(h, s, t, c), s, t, j)
    ensures SparesOthers(h, s, t, c) && Victim(h, s, c).None?
  {
    assert Local(s, c) && Told(h, s, c);
    OwnFacts(h, s, c, e, p);
    OwnHistory(h, s, t, c, e, p);
  }

  lemma {:induction false} OwnTells(h: History, s: State, c: CallId, e: EntryId, p: Ptr)
    requires Inv(s) && HInv(h, s) && c < |s.calls| && s.calls[c].pc == TryCas(e, p, Own) && PtrOf(s, e) == p
    ensures HInv(NoteStep(h, s, DoTryCas(s, c, e, p, Own), c), DoTryCas(s, c, e, p, Own))
  {
    var t := DoTryCas(s, c, e, p, Own);
    OwnReady(h, s, t, c, e, p);
    TryCasHitKeeps(s, c, e, p, Own);
    StepTells(h, s, t, c);
  }

  // ----- CompareAndDelete empties an entry that a LoadAndDelete has unlinked

  /** A CompareAndDelete that finds a value in a detached entry was waiting when the entry was unlinked. */
  lemma {:induction false} StealerWaited(h: History, s: State, c: CallId, e: EntryId, p: Ptr)
    requires c < |s.calls| == |h.start| && Local(s, c) && Told(h, s, c) && Claimed(h, s)
    requires s.calls[c].pc == TryCas(e, p, Fast) && PtrOf(s, e) == p && Detached(s, e)
    ensures p.Live? && s.calls[c].kind.CompareAndDelete? && s.entries[e].key == s.calls[c].key && c !in h.lin
    ensures e in h.owner && h.owner[e] < |s.calls| && Owned(s.calls[h.owner[e]].pc) == Some(e)
    ensures h.owner[e] in h.lin && h.start[c] <= h.lin[h.owner[e]]
  {
  }

  /** What is known of the LoadAndDelete that unlinked entry `e`. */
  lemma {:induction false} OwnerKnows(h: History, s: State, v: CallId, e: EntryId)
    requires v < |s.calls| == |h.start| && Local(s, v) && Told(h, s, v) && Owned(s.calls[v].pc) == Some(e)
    ensures s.calls[v].kind.LoadAndDelete? && e < |s.entries| && s.entries[e].key == s.calls[v].key
    ensures Unlinked(h, s, v, e)
  {
  }

  lemma {:induction false} VictimIs(h: History, s: State, c: CallId, e: EntryId, p: Ptr)
    requires c < |s.calls| && s.calls[c].pc == TryCas(e, p, Fast) && PtrOf(s, e) == p && Detached(s, e)
    requires e in h.owner && h.owner[e] in h.lin
    ensures Victim(h, s, c) == Some(h.owner[e])
  {
  }

  /** A CompareAndDelete that finds a value in a detached entry has a victim, unlinked while it was waiting. */
  lemma {:induction false} VictimFound(h: History, s: State, c: CallId, e: EntryId, p: Ptr) returns (v: CallId)
    requires Inv(s) && HInv(h, s) && c < |s.calls| && s.calls[c].pc == TryCas(e, p, Fast) && PtrOf(s, e) == p
    requires Detached(s, e)
    ensures Victim(h, s, c) == Some(v) && v != c && v < |s.calls| && Owned(s.calls[v].pc) == Some(e)
    ensures c !in h.lin && v in h.lin && TakesEffect(h, s.calls, v) && h.start[c] <= h.lin[v]
    ensures s.calls[c].kind.CompareAndDelete? && s.calls[v].kind.LoadAndDelete? && p.Live?
    ensures s.entries[e].key == s.calls[c].key == s.calls[v].key
    ensures e in h.owner && h.owner[e] == v && Unlinked(h, s, v, e)
  {
    assert Local(s, c) && Told(h, s, c);
    StealerWaited(h, s, c, e, p);
    VictimIs(h, s, c, e, p);
    v := h.owner[e];
    assert Local(s, v) && Told(h, s, v);
    OwnerKnows(h, s, v, e);
  }

  lemma {:induction false} StealNote(h: History, s: State, t: State, c: CallId, v: CallId, e: EntryId, p: Ptr)
    requires |h.maps| == |h.writer| + 1 && c < |s.calls| == |t.calls| && s.calls[c].pc == TryCas(e, p, Fast)
    requires t == DoTryCas(s, c, e, p, Fast) && PtrOf(s, e) == p
    requires Victim(h, s, c) == Some(v) && v in h.lin && h.lin[v] < |h.writer|
    ensures var g := NoteStep(h, s, t, c);
            && Grows(h, g, t) && g.writer == h.writer[h.lin[v] := Some(c)] + [None]
            && g.lin == (h.lin - {v})[c := h.lin[v]] && g.owner == h.owner && g.end == h.end[c := |h.maps|]
  {
  }

  lemma {:induction false} StealTold(h: History, g: History, s: State, t: State, c: CallId, v: CallId, e: EntryId,
                                     p: Ptr)
    requires |h.maps| == |h.writer| + 1 && c < |s.calls| == |t.calls| == |h.start|
    requires v < |s.calls| && v != c && e < |s.entries|
    requires s.calls[c].pc == TryCas(e, p, Fast) && PtrOf(s, e) == p && p.Live? && s.calls[c].kind.CompareAndDelete?
    requires s.calls[v].key == s.calls[c].key && Unlinked(h, s, v, e) && Owned(s.calls[v].pc) == Some(e)
    requires v in h.lin && h.lin[v] < |h.writer|
    requires t == DoTryCas(s, c, e, p, Fast)
    requires Grows(h, g, t) && g.owner == h.owner && g.lin == (h.lin - {v})[c := h.lin[v]]
    requires g.end == h.end[c := |h.maps|]
    ensures Told(g, t, c) && Told(g, t, v)
  {
    assert g.maps[h.lin[v]] == h.maps[h.lin[v]];
    SeenGrows(h, g, h.start[v], |h.maps|, s.calls[v].key, None);
    SeenWidens(g, h.start[v], |h.maps|, |g.maps|, s.calls[v].key, None);
    assert Unlinked(g, t, v, e);
  }

  /** What the theft leaves of the history, apart from the calls it does not concern. */
  lemma {:induction false} StealHistory(h: History, s: State, t: State, c: CallId, v: CallId, e: EntryId, p: Ptr)
    requires LogOk(h, s) && Claimed(h, s) && Filed(s, s.read.m) && Filed(s, DirtyTable(s))
    requires c < |s.calls| && s.calls[c].pc == TryCas(e, p, Fast) && PtrOf(s, e) == p && Detached(s, e)
    requires Victim(h, s, c) == Some(v) && v != c && v < |s.calls| && Owned(s.calls[v].pc) == Some(e)
    requires c !in h.lin && v in h.lin && TakesEffect(h, s.calls, v) && h.start[c] <= h.lin[v]
    requires s.calls[c].kind.CompareAndDelete? && s.calls[v].kind.LoadAndDelete? && p.Live?
    requires s.calls[c].key == s.calls[v].key && e in h.owner && h.owner[e] == v && Unlinked(h, s, v, e)
    requires t == DoTryCas(s, c, e, p, Fast)
    ensures LogOk(NoteStep(h, s, t, c), t) && Claimed(NoteStep(h, s, t, c), t)
    ensures Told(NoteStep(h, s, t, c), t, c) && Told(NoteStep(h, s, t, c), t, v)
    ensures forall j: EntryId :: j < |s.entries| ==> EntryRely(h, NoteStep(h, s, t, c), s, t, j)
    ensures SparesOthers(h, s, t, c)
  {
    var g := NoteStep(h, s, t, c);
    StealNote(h, s, t, c, v, e, p);
    DetachedInvisible(s, t, e, Nil);
    LogSteal(h, g, s, t, c, v);
    StealRely(h, s, t, c, v, e, p);
    StealTold(h, g, s, t, c, v, e, p);
  }

  /** What the theft leaves of the promises about entries. */
  lemma {:induction false} StealRely(h: History, s: State, t: State, c: CallId, v: CallId, e: EntryId, p: Ptr)
    requires |h.maps| == |h.writer| + 1 && Claimed(h, s) && c !in h.lin && v in h.lin && h.lin[v] < |h.writer|
    requires c < |s.calls| && s.calls[c].pc == TryCas(e, p, Fast) && PtrOf(s, e) == p && Detached(s, e)
    requires Victim(h, s, c) == Some(v) && v != c && v < |s.calls| && Owned(s.calls[v].pc) == Some(e)
    requires s.calls[c].kind.CompareAndDelete? && e in h.owner && h.owner[e] == v
    requires t == DoTryCas(s, c, e, p, Fast)
    ensures Claimed(NoteStep(h, s, t, c), t) && SparesOthers(h, s, t, c)
    ensures forall j: EntryId :: j < |s.entries| ==> EntryRely(h, NoteStep(h, s, t, c), s, t, j)
  {
    StealNote(h, s, t, c, v, e, p);
    EmptyRely(h, NoteStep(h, s, t, c), s, t, c, e);
    EmptySpares(h, s, t, c, e);
  }

  lemma {:induction false} StealTells(h: History, s: State, c: CallId, e: EntryId, p: Ptr)
    requires Inv(s) && HInv(h, s) && c < |s.calls| && s.calls[c].pc == TryCas(e, p, Fast) && PtrOf(s, e) == p
    requires Detached(s, e)
    ensures var t := DoTryCas(s, c, e, p, Fast); HInv(NoteStep(h, s, t, c), t)
  {
    var t := DoTryCas(s, c, e, p, Fast);
    var v := VictimFound(h, s, c, e, p);
    StealHistory(h, s, t, c, v, e, p);
    TryCasHitKeeps(s, c, e, p, Fast);
    StepTells(h, s, t, c);
  }

  // ----- any successful compare-and-swap of an entry loop

  lemma {:induction false} HitLinked(s: State, c: CallId, e: EntryId, p: Ptr, mode: Mode)
    requires Inv(s) && c < |s.calls| && s.calls[c].pc == TryCas(e, p, mode) && PtrOf(s, e) == p && mode != Own
    requires !(mode.Fast? && Detached(s, e))
    ensures Linked(s, e) && s.entries[e].key == s.calls[c].key && Writes(s.calls[c].kind, ValueOf(p))
  {
    assert Local(s, c);
    LinkedOrDetached(s, e);
  }

  lemma {:induction false} TryCasHitTells(h: History, s: State, c: CallId, e: EntryId, p: Ptr, mode: Mode)
    requires Inv(s) && HInv(h, s) && c < |s.calls| && s.calls[c].pc == TryCas(e, p, mode) && PtrOf(s, e) == p
    ensures var t := DoTryCas(s, c, e, p, mode); HInv(NoteStep(h, s, t, c), t)
  {
    assert Told(h, s, c);
    if mode.Own? {
      OwnTells(h, s, c, e, p);
    } else if mode.Fast? && Detached(s, e) {
      StealTells(h, s, c, e, p);
    } else {
      HitLinked(s, c, e, p, mode);
      TryCasHitKeeps(s, c, e, p, mode);
      EntryWriteTells(h, s, c, e, Finish(mode, ValueOf(p)));
    }
  }
}
