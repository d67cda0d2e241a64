/** The steps of the concurrent map that leave the abstract table as it is. */
module MapQuiet {
  import opened Basics
  import opened MapSpec
  import opened MapMachine
  import opened MapInvariant
  import opened MapHistory
  import opened MapHistorySteps
  import opened MapLinear

  /** No key and no entry changes its value; only an empty entry may leave the tables. */
  ghost predicate Quiet(s: State, t: State) {
    && |t.entries| == |s.entries|
    && (forall k :: At(t, k) == At(s, k))
    && forall e: EntryId :: e < |s.entries| ==> QuietEntry(s, t, e)
  }

  ghost predicate QuietEntry(s: State, t: State, e: EntryId)
    requires e < |s.entries| == |t.entries|
  {
    && t.entries[e].key == s.entries[e].key
    && ValueOf(PtrOf(t, e)) == ValueOf(PtrOf(s, e))
    && (Linked(s, e) ==> Linked(t, e) || ValueOf(PtrOf(s, e)).None?)
    && (Detached(t, e) && PtrOf(t, e).Live? ==> Detached(s, e))
  }

  lemma {:induction false} SharedQuiet(s: State, t: State)
    requires t.entries == s.entries && t.read == s.read && t.dirty == s.dirty
    ensures Quiet(s, t)
  {
  }

  lemma {:induction false} QuietRely(h: History, s: State, t: State, c: CallId)
    requires h.maps != [] && c < |s.calls| == |t.calls|
    requires Quiet(s, t) && !Commits(h, s, c) && Victim(h, s, c).None?
    requires Unlinks(s, c).Some? ==> !Detached(s, Unlinks(s, c).value)
    ensures forall e: EntryId :: e < |s.entries| ==> EntryRely(h, NoteStep(h, s, t, c), s, t, e)
  {
    forall e: EntryId | e < |s.entries| ensures EntryRely(h, NoteStep(h, s, t, c), s, t, e) {
      assert QuietEntry(s, t, e);
    }
  }

  lemma {:induction false} QuietSpares(h: History, s: State, t: State, c: CallId)
    requires c < |s.calls| && Quiet(s, t)
    requires forall e: EntryId :: Detached(s, e) ==> Detached(t, e)
    ensures SparesOthers(h, s, t, c)
  {
    forall e: EntryId | Detached(s, e) ensures PtrOf(t, e) == PtrOf(s, e) {
      assert QuietEntry(s, t, e);
    }
  }

  /** A call with an unlinked entry goes on holding it, or has found it empty. */
  ghost predicate KeepsClaim(s: State, t: State, c: CallId)
    requires c < |s.calls| == |t.calls|
  {
    var mine := Owned(s.calls[c].pc);
    mine.Some? ==> (Owned(t.calls[c].pc) == mine || !PtrOf(t, mine.value).Live?)
  }

  lemma {:induction false} QuietClaimed(h: History, s: State, t: State, c: CallId)
    requires h.maps != [] && c < |s.calls| == |t.calls| && Claimed(h, s) && Quiet(s, t)
    requires forall d :: 0 <= d < |s.calls| && d != c ==> t.calls[d] == s.calls[d]
    requires !Commits(h, s, c) && Victim(h, s, c).None?
    requires Unlinks(s, c).Some? ==> !Detached(s, Unlinks(s, c).value)
    requires KeepsClaim(s, t, c)
    ensures Claimed(NoteStep(h, s, t, c), t)
  {
    forall e: EntryId | Detached(t, e) && PtrOf(t, e).Live?
      ensures var g := NoteStep(h, s, t, c);
              e in g.owner && g.owner[e] < |t.calls| && Owned(t.calls[g.owner[e]].pc) == Some(e)
    {
      assert QuietEntry(s, t, e);
    }
  }

  /** The rule for a quiet step: only what the history says of the call itself is left to show. */
  lemma {:induction false} QuietTells(h: History, s: State, t: State, c: CallId)
    requires Inv(s) && HInv(h, s) && Rely(s, t, c) && !Returned(s.calls[c].pc) && Quiet(s, t)
    requires SameJob(s.calls[c], t.calls[c])
    requires !Commits(h, s, c) && Victim(h, s, c).None?
    requires KeepsClaim(s, t, c)
    requires Told(NoteStep(h, s, t, c), t, c)
    ensures HInv(NoteStep(h, s, t, c), t)
  {
    UnlinksInDirty(s, c);
    AbsSame(s, t);
    LogSilent(h, NoteStep(h, s, t, c), s, t);
    QuietRely(h, s, t, c);
    QuietSpares(h, s, t, c);
    QuietClaimed(h, s, t, c);
    StepTells(h, s, t, c);
  }

  // ----- what the moving call may claim of an entry

  lemma {:induction false} LinkedWatched(g: History, t: State, a: nat, e: EntryId)
    requires Tables(t, Busy(t), Building(t)) && Linked(t, e)
    requires g.maps != [] && g.maps[|g.maps| - 1] == Abs(t) && a < |g.maps|
    ensures Watched(g, t, a, e)
  {
    LinkedOrDetached(t, e);
    SeenNow(g, t, a, t.entries[e].key);
  }

  /** A Range that starts on the whole of `read` while `dirty` has nothing more. */
  lemma {:induction false} RangingStarts(g: History, t: State, a: nat)
    requires Tables(t, Busy(t), Building(t)) && !t.read.amended
    requires g.maps != [] && g.maps[|g.maps| - 1] == Abs(t) && a < |g.maps|
    ensures Ranging(g, t, a, |g.maps|, t.read.m, map[])
  {
    forall k | k in t.read.m ensures t.read.m[k] < |t.entries| && Watched(g, t, a, t.read.m[k]) {
      assert Linked(t, t.read.m[k]);
      LinkedWatched(g, t, a, t.read.m[k]);
    }
    forall k | k !in t.read.m ensures Seen(g, a, |g.maps|, k, None) {
      SeenNow(g, t, a, k);
      assert At(t, k) == None;
    }
  }
}
