/** The steps of the lock holder that change the tables but not the abstract table, and steps that do nothing. */
module MapTableSteps {
  import opened Basics
  import opened MapSpec
  import opened MapMachine
  import opened MapInvariant
  import opened MapSteps
  import opened MapHistory
  import opened MapHistorySteps
  import opened MapLinear
  import opened MapQuiet
  import opened MapQuietSteps

  lemma {:induction false} QuietGrown(h: History, s: State, t: State, c: CallId)
    requires LogOk(h, s) && Quiet(s, t) && c < |s.calls| == |t.calls| && SameJob(s.calls[c], t.calls[c])
    requires !Returned(s.calls[c].pc) && !Commits(h, s, c) && Victim(h, s, c).None?
    ensures Grown(h, NoteStep(h, s, t, c), s, t, c)
  {
    AbsSame(s, t);
    if c in h.lin { assert TakesEffect(h, s.calls, c); }
  }

  /** A quiet step of a call that has not taken effect to a point where nothing more is known of it. */
  lemma {:induction false} PlainTells(h: History, s: State, t: State, c: CallId)
    requires Inv(s) && HInv(h, s) && Rely(s, t, c) && Quiet(s, t) && SameJob(s.calls[c], t.calls[c])
    requires s.mu == Some(c) && !Commits(h, s, c) && Victim(h, s, c).None?
    requires || s.calls[c].pc.Unexpunge? || s.calls[c].pc.Relink?
             || BuildsDirty(s.calls[c].pc) || s.calls[c].pc.DirtyBegin?
    requires Inv(t)
    requires || t.calls[c].pc.Relink? || t.calls[c].pc.SwapLocked?
             || BuildsDirty(t.calls[c].pc) || t.calls[c].pc.Insert?
             || (t.calls[c].pc.Try? && t.calls[c].pc.mode.Held?)
    ensures HInv(NoteStep(h, s, t, c), t)
  {
    assert Told(h, s, c);
    QuietGrown(h, s, t, c);
    assert Local(t, c);
    if t.calls[c].pc.Try? {
      LinkedWatched(NoteStep(h, s, t, c), t, h.start[c], t.calls[c].pc.e);
    }
    QuietTells(h, s, t, c);
  }

  // ----- expunging, unexpunging, and building dirty

  lemma {:induction false} UnexpungeQuiet(s: State, c: CallId, e: EntryId)
    requires c < |s.calls| && InRead(s, e)
    ensures Quiet(s, DoUnexpunge(s, c, e))
  {
  }

  lemma {:induction false} UnexpungeTells(h: History, s: State, c: CallId, e: EntryId)
    requires Inv(s) && HInv(h, s) && c < |s.calls| && s.calls[c].pc == Unexpunge(e)
    ensures var t := DoUnexpunge(s, c, e); HInv(NoteStep(h, s, t, c), t)
  {
    assert Local(s, c);
    UnexpungeKeeps(s, c, e);
    UnexpungeQuiet(s, c, e);
    PlainTells(h, s, DoUnexpunge(s, c, e), c);
  }

  lemma {:induction false} RelinkQuiet(s: State, c: CallId, e: EntryId)
    requires c < |s.calls| && InRead(s, e) && s.dirty.Some? && s.entries[e].key == s.calls[c].key
    requires s.calls[c].key !in s.dirty.value
    ensures Quiet(s, DoRelink(s, c, e))
  {
    var t := DoRelink(s, c, e);
    forall j: EntryId | j < |s.entries| ensures QuietEntry(s, t, j) {
      assert InRead(t, j) <==> InRead(s, j);
      assert InDirty(s, j) ==> InDirty(t, j);
    }
  }

  lemma {:induction false} RelinkTells(h: History, s: State, c: CallId, e: EntryId)
    requires Inv(s) && HInv(h, s) && c < |s.calls| && s.calls[c].pc == Relink(e)
    ensures var t := DoRelink(s, c, e); HInv(NoteStep(h, s, t, c), t)
  {
    assert Local(s, c) && s.mu == Some(c);
    assert Agrees(s, s.calls[c].key, {s.calls[c].key});
    RelinkKeeps(s, c, e);
    RelinkQuiet(s, c, e);
    PlainTells(h, s, DoRelink(s, c, e), c);
  }

  lemma {:induction false} DirtyBeginTells(h: History, s: State, c: CallId)
    requires Inv(s) && HInv(h, s) && c < |s.calls| && s.calls[c].pc == DirtyBegin
    ensures var t := DoDirtyBegin(s, c); HInv(NoteStep(h, s, t, c), t)
  {
    assert Local(s, c) && s.mu == Some(c);
    DirtyBeginKeeps(s, c);
    assert Quiet(s, DoDirtyBegin(s, c));
    PlainTells(h, s, DoDirtyBegin(s, c), c);
  }

  /** Filing an entry of `read` in a `dirty` that nobody consults yet. */
  lemma {:induction false} DirtyProbeQuiet(s: State, c: CallId, todo: set<Key>, j: Key)
    requires c < |s.calls| && Filed(s, s.read.m) && !s.read.amended && s.dirty.Some?
    requires j in s.read.m && j !in s.dirty.value
    ensures Quiet(s, DoDirtyProbe(s, c, todo, j))
  {
    var t := DoDirtyProbe(s, c, todo, j);
    forall i: EntryId | i < |s.entries| ensures QuietEntry(s, t, i) {
      assert InRead(t, i) <==> InRead(s, i);
      assert InDirty(s, i) ==> InDirty(t, i);
    }
  }

  lemma {:induction false} DirtyProbeTells(h: History, s: State, c: CallId, todo: set<Key>, j: Key)
    requires Inv(s) && HInv(h, s) && c < |s.calls| && s.calls[c].pc == DirtyProbe(todo, j)
    ensures var t := DoDirtyProbe(s, c, todo, j); HInv(NoteStep(h, s, t, c), t)
  {
    assert Local(s, c) && s.mu == Some(c);
    assert Agrees(s, j, todo);
    DirtyProbeKeeps(s, c, todo, j);
    DirtyProbeQuiet(s, c, todo, j);
    PlainTells(h, s, DoDirtyProbe(s, c, todo, j), c);
  }

  lemma {:induction false} DirtyCasQuiet(s: State, c: CallId, todo: set<Key>, j: Key)
    requires c < |s.calls| && j in s.read.m
    ensures Quiet(s, DoDirtyCas(s, c, todo, j))
  {
  }

  lemma {:induction false} DirtyCasTells(h: History, s: State, c: CallId, todo: set<Key>, j: Key)
    requires Inv(s) && HInv(h, s) && c < |s.calls| && s.calls[c].pc == DirtyCas(todo, j)
    ensures var t := DoDirtyCas(s, c, todo, j); HInv(NoteStep(h, s, t, c), t)
  {
    assert Local(s, c) && s.mu == Some(c);
    DirtyCasKeeps(s, c, todo, j);
    DirtyCasQuiet(s, c, todo, j);
    PlainTells(h, s, DoDirtyCas(s, c, todo, j), c);
  }

  lemma {:induction false} AmendQuiet(s: State, c: CallId)
    requires c < |s.calls| && Tables(s, {}, true)
    ensures Quiet(s, DoAmend(s, c))
  {
  }

  lemma {:induction false} AmendTells(h: History, s: State, c: CallId)
    requires Inv(s) && HInv(h, s) && c < |s.calls| && s.calls[c].pc == Amend
    ensures var t := DoAmend(s, c); HInv(NoteStep(h, s, t, c), t)
  {
    assert Local(s, c) && s.mu == Some(c);
    AmendKeeps(s, c);
    AmendQuiet(s, c);
    PlainTells(h, s, DoAmend(s, c), c);
  }

  // ----- misses and promotion

  /** Promoting `dirty`, less keys without a value, changes no lookup. */
  lemma {:induction false} PromoteQuiet(s: State, t: State, d: map<Key, EntryId>)
    requires Tables(s, {}, false) && s.read.amended
    requires t.entries == s.entries && t.read == ReadOnly(d, false) && t.dirty.None?
    requires forall k :: k in d ==> k in DirtyTable(s) && d[k] == DirtyTable(s)[k]
    requires forall k :: k in DirtyTable(s) && k !in d ==> k !in s.read.m && At(s, k).None?
    ensures Quiet(s, t)
  {
    forall k ensures At(t, k) == At(s, k) {
      if k in s.read.m { assert Agrees(s, k, {}); }
    }
    forall e: EntryId | e < |s.entries| ensures QuietEntry(s, t, e) {
      var k := s.entries[e].key;
      if k in s.read.m { assert Agrees(s, k, {}); }
    }
  }

  lemma {:induction false} CountMissQuiet(s: State, t: State, d: map<Key, EntryId>)
    requires Tables(s, {}, false) && s.read.amended
    requires t.entries == s.entries && t.read == s.read && t.dirty == Some(d)
    requires forall k :: k in d ==> k in DirtyTable(s) && d[k] == DirtyTable(s)[k]
    requires forall k :: k in DirtyTable(s) && k !in d ==> k !in s.read.m && At(s, k).None?
    ensures Quiet(s, t)
  {
    forall e: EntryId | e < |s.entries| ensures QuietEntry(s, t, e) {
      var k := s.entries[e].key;
      assert InRead(t, e) <==> InRead(s, e);
    }
  }

  lemma {:induction false} MissLockedQuiet(s: State, c: CallId, d: map<Key, EntryId>, pc: Pc)
    requires Tables(s, {}, false) && s.read.amended && c < |s.calls|
    requires forall k :: k in d ==> k in DirtyTable(s) && d[k] == DirtyTable(s)[k]
    requires forall k :: k in DirtyTable(s) && k !in d ==> k !in s.read.m && At(s, k).None?
    ensures Quiet(s, Goto(MissLocked(s, d), c, pc))
  {
    var t := Goto(MissLocked(s, d), c, pc);
    if s.misses + 1 < |d| { CountMissQuiet(s, t, d); } else { PromoteQuiet(s, t, d); }
  }

  lemma {:induction false} MissQuiet(s: State, c: CallId, r: Option<Cell>)
    requires Tables(s, Busy(s), Building(s)) && c < |s.calls| && s.mu == Some(c) && Local(s, c)
    requires s.calls[c].pc == Miss(r)
    ensures Quiet(s, Goto(MissLocked(s, DirtyTable(s)), c, Unlock(Return(r))))
  {
    MissLockedQuiet(s, c, DirtyTable(s), Unlock(Return(r)));
  }

  lemma {:induction false} MissTold(h: History, s: State, t: State, c: CallId, r: Option<Cell>)
    requires LogOk(h, s) && Quiet(s, t) && c < |s.calls| == |t.calls| && SameJob(s.calls[c], t.calls[c])
    requires s.calls[c].pc == Miss(r) && t.calls[c].pc == Unlock(Return(r)) && Told(h, s, c)
    ensures Told(NoteStep(h, s, t, c), t, c)
  {
    QuietGrown(h, s, t, c);
    SettledStable(h, NoteStep(h, s, t, c), s, t, c, r, |h.maps|, |h.maps| + 1);
  }

  lemma {:induction false} MissTells(h: History, s: State, c: CallId, r: Option<Cell>)
    requires Inv(s) && HInv(h, s) && c < |s.calls| && s.calls[c].pc == Miss(r)
    ensures var t := Goto(MissLocked(s, DirtyTable(s)), c, Unlock(Return(r))); HInv(NoteStep(h, s, t, c), t)
  {
    var t := Goto(MissLocked(s, DirtyTable(s)), c, Unlock(Return(r)));
    assert Local(s, c) && s.mu == Some(c) && Told(h, s, c);
    MissKeeps(s, c, r);
    MissQuiet(s, c, r);
    MissTold(h, s, t, c, r);
    QuietTells(h, s, t, c);
  }

  lemma {:induction false} RangePromoteTells(h: History, s: State, c: CallId)
    requires Inv(s) && HInv(h, s) && c < |s.calls| && s.calls[c].pc == RangePromote
    ensures var t := DoRangePromote(s, c); HInv(NoteStep(h, s, t, c), t)
  {
    var t := DoRangePromote(s, c);
    assert Local(s, c) && s.mu == Some(c) && Told(h, s, c);
    RangePromoteKeeps(s, c);
    PromoteQuiet(s, t, DirtyTable(s));
    QuietGrown(h, s, t, c);
    RangingStarts(NoteStep(h, s, t, c), t, h.start[c]);
    QuietTells(h, s, t, c);
  }

  /** A lookup in `dirty` that unlinks nothing of value. */
  lemma {:induction false} MissLookupTold(h: History, g: History, s: State, t: State, c: CallId)
    requires Grown(h, g, s, t, c) && Tables(t, Busy(t), Building(t)) && Local(s, c) && Filed(s, DirtyTable(s))
    requires s.calls[c].pc == MissLookup && t == DoMissLookup(s, c) && c !in h.lin
    requires Unlinks(s, c).Some? ==> ValueOf(PtrOf(s, Unlinks(s, c).value)).None?
    requires Unlinks(s, c).Some? ==> Unlinks(s, c).value in g.owner && g.owner[Unlinks(s, c).value] == c
    requires !s.calls[c].kind.LoadAndDelete? && s.calls[c].key in DirtyTable(s) ==>
               Linked(t, DirtyTable(s)[s.calls[c].key])
    ensures Told(g, t, c)
  {
    var k, d := s.calls[c].key, DirtyTable(s);
    if k in d && !s.calls[c].kind.LoadAndDelete? {
      LinkedWatched(g, t, h.start[c], d[k]);
    } else {
      MissLookupLeavesNothing(s, c);
      SeenNow(g, t, h.start[c], k);
      if k in d { EmptyUnlinkedTold(g, t, c, d[k]); }
    }
  }

  /** A LoadAndDelete that has just unlinked an empty entry. */
  lemma {:induction false} EmptyUnlinkedTold(g: History, t: State, c: CallId, e: EntryId)
    requires c < |t.calls| == |g.start| && e < |t.entries| && t.calls[c].pc == Unlock(Probe(e, Own))
    requires e in g.owner && g.owner[e] == c && ValueOf(PtrOf(t, e)).None? && c !in g.lin
    requires Seen(g, g.start[c], |g.maps|, t.calls[c].key, None)
    ensures Told(g, t, c)
  {
    assert Unlinked(g, t, c, e);
  }

  lemma {:induction false} MissLookupLeavesNothing(s: State, c: CallId)
    requires c < |s.calls| && s.calls[c].key !in s.read.m
    requires s.calls[c].kind.LoadAndDelete? || s.calls[c].key !in DirtyTable(s)
    ensures At(DoMissLookup(s, c), s.calls[c].key) == None
  {
  }

  lemma {:induction false} MissLookupQuiet(s: State, c: CallId)
    requires Tables(s, {}, false) && s.read.amended && c < |s.calls|
    requires s.calls[c].pc == MissLookup && s.calls[c].key !in s.read.m
    requires Unlinks(s, c).Some? ==> ValueOf(PtrOf(s, Unlinks(s, c).value)).None?
    ensures Quiet(s, DoMissLookup(s, c))
  {
    var k, d, unlink := s.calls[c].key, DirtyTable(s), s.calls[c].kind.LoadAndDelete?;
    MissLockedQuiet(s, c, if unlink then d - {k} else d, DoMissLookup(s, c).calls[c].pc);
  }

  lemma {:induction false} MissLookupLinks(s: State, c: CallId)
    requires Tables(s, {}, false) && c < |s.calls| && Local(s, c) && s.calls[c].pc == MissLookup
    requires !s.calls[c].kind.LoadAndDelete? && s.calls[c].key in DirtyTable(s)
    ensures Linked(DoMissLookup(s, c), DirtyTable(s)[s.calls[c].key])
  {
  }

  lemma {:induction false} MissLookupTells(h: History, s: State, c: CallId)
    requires Inv(s) && HInv(h, s) && c < |s.calls| && s.calls[c].pc == MissLookup
    requires Unlinks(s, c).Some? ==> ValueOf(PtrOf(s, Unlinks(s, c).value)).None?
    ensures var t := DoMissLookup(s, c); HInv(NoteStep(h, s, t, c), t)
  {
    var t := DoMissLookup(s, c);
    assert Local(s, c) && s.mu == Some(c) && Told(h, s, c);
    MissLookupKeeps(s, c);
    MissLookupQuiet(s, c);
    QuietGrown(h, s, t, c);
    if !s.calls[c].kind.LoadAndDelete? && s.calls[c].key in DirtyTable(s) { MissLookupLinks(s, c); }
    MissLookupTold(h, NoteStep(h, s, t, c), s, t, c);
    QuietTells(h, s, t, c);
  }

  // ----- steps that do nothing

  lemma {:induction false} StutterTells(h: History, g: History, s: State)
    requires HInv(h, s)
    requires Grows(h, g, s) && g.writer == h.writer + [None] && g.lin == h.lin && g.end == h.end && g.owner == h.owner
    ensures HInv(g, s)
  {
    LogSilent(h, g, s, s);
    forall c | 0 <= c < |s.calls| ensures Told(g, s, c) {
      assert Told(h, s, c);
      ToldStable(h, g, s, s, c);
    }
  }
}
