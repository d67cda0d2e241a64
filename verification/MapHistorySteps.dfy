/** Every step of the concurrent map keeps what its history says. */
module MapHistorySteps {
  import opened Basics
  import opened MapSpec
  import opened MapMachine
  import opened MapInvariant
  import opened MapHistory

  // ----- the abstract table

  lemma {:induction false} AbsGet(s: State, k: Key)
    ensures Get(Abs(s), k) == At(s, k)
  {
  }

  lemma {:induction false} TablesEqual(t: Table, u: Table)
    requires forall k :: Get(t, k) == Get(u, k)
    ensures t == u
  {
    forall k ensures k in t <==> k in u {
      assert Get(t, k) == Get(u, k);
    }
    forall k | k in t ensures t[k] == u[k] {
      assert Get(t, k) == Get(u, k);
    }
  }

  lemma {:induction false} AbsSame(s: State, t: State)
    requires forall k :: At(t, k) == At(s, k)
    ensures Abs(t) == Abs(s)
  {
    forall k ensures Get(Abs(s), k) == Get(Abs(t), k) {
      AbsGet(s, k);
      AbsGet(t, k);
    }
    TablesEqual(Abs(s), Abs(t));
  }

  /** The table after the effect of call `c`, key by key. */
  lemma {:induction false} AbsApply(s: State, t: State, c: CallId)
    requires c < |s.calls|
    requires var call := s.calls[c];
             && Writes(call.kind, At(s, call.key))
             && At(t, call.key) == (if Deletes(call.kind) then None else Some(Cell(c, call.val)))
             && forall k :: k != call.key ==> At(t, k) == At(s, k)
    ensures var call := s.calls[c]; Abs(t) == Apply(call.kind, call.key, call.val, c, Abs(s))
  {
    var call := s.calls[c];
    var u := Apply(call.kind, call.key, call.val, c, Abs(s));
    AbsGet(s, call.key);
    forall k ensures Get(Abs(t), k) == Get(u, k) {
      AbsGet(s, k);
      AbsGet(t, k);
    }
    TablesEqual(Abs(t), u);
  }

  /** An entry that is not expunged is linked or detached, and a linked entry is what a lookup finds. */
  lemma {:induction false} LinkedOrDetached(s: State, e: EntryId)
    requires Tables(s, Busy(s), Building(s)) && e < |s.entries|
    ensures PtrOf(s, e).Expunged? || Linked(s, e) || Detached(s, e)
    ensures Linked(s, e) ==> At(s, s.entries[e].key) == ValueOf(PtrOf(s, e))
    ensures !(Linked(s, e) && Detached(s, e))
  {
    var k := s.entries[e].key;
    if s.dirty.Some? && k in s.read.m { assert Agrees(s, k, Busy(s)); }
  }

  // ----- what stays true of the other calls

  lemma {:induction false} SeenGrows(h: History, g: History, a: nat, b: nat, k: Key, r: Option<Cell>)
    requires |h.maps| <= |g.maps| && g.maps[..|h.maps|] == h.maps
    requires Seen(h, a, b, k, r)
    ensures Seen(g, a, b, k, r)
  {
    var i :| a <= i < b && i < |h.maps| && Get(h.maps[i], k) == r;
    assert g.maps[i] == h.maps[i];
  }

  /** What the newest table gives has been seen. */
  lemma {:induction false} SeenNow(h: History, s: State, a: nat, k: Key)
    requires h.maps != [] && h.maps[|h.maps| - 1] == Abs(s) && a < |h.maps|
    ensures Seen(h, a, |h.maps|, k, At(s, k))
  {
    AbsGet(s, k);
    assert Get(h.maps[|h.maps| - 1], k) == At(s, k);
  }

  /** The history grows by the table of `t`. */
  ghost predicate Grows(h: History, g: History, t: State) {
    && g.maps == h.maps + [Abs(t)]
    && g.start == h.start
  }

  /** What a step may do to entry `e` as far as the calls that hold it are concerned. */
  ghost predicate EntryRely(h: History, g: History, s: State, t: State, e: EntryId)
    requires e < |s.entries| <= |t.entries|
  {
    var k, p, q := s.entries[e].key, PtrOf(s, e), PtrOf(t, e);
    && t.entries[e].key == k
    && (|| ValueOf(q) == ValueOf(p)
        || At(t, k) == ValueOf(q)
        || (ValueOf(q).None? && !Linked(s, e)))
    && (Linked(s, e) ==> Linked(t, e) || ValueOf(p).None? || At(t, k).None?)
    && (Detached(t, e) && q.Live? ==>
          || (&& Detached(s, e) && p.Live?
              && (e in h.owner && h.owner[e] in h.lin ==>
                    && e in g.owner && g.owner[e] == h.owner[e]
                    && g.owner[e] in g.lin && g.lin[g.owner[e]] == h.lin[h.owner[e]]))
          || (e in g.owner && g.owner[e] in g.lin && g.lin[g.owner[e]] == |h.maps| - 1))
  }

  lemma {:induction false} WatchedStable(h: History, g: History, s: State, t: State, a: nat, e: EntryId)
    requires h.maps != [] && g.maps == h.maps + [Abs(t)] && a < |h.maps|
    requires e < |s.entries| <= |t.entries|
    requires EntryRely(h, g, s, t, e)
    requires Watched(h, s, a, e)
    ensures Watched(g, t, a, e)
  {
    var k, p, q := s.entries[e].key, PtrOf(s, e), PtrOf(t, e);
    SeenNow(g, t, a, k);
    SeenGrows(h, g, a, |h.maps|, k, ValueOf(p));
    if !Linked(s, e) { SeenGrows(h, g, a, |h.maps|, k, None); }
    SeenWidens(g, a, |h.maps|, |g.maps|, k, ValueOf(p));
    SeenWidens(g, a, |h.maps|, |g.maps|, k, None);
  }

  lemma {:induction false} SeenWidens(h: History, a: nat, b: nat, b': nat, k: Key, r: Option<Cell>)
    requires b <= b'
    ensures Seen(h, a, b, k, r) ==> Seen(h, a, b', k, r)
  {
  }

  lemma {:induction false} SettledStable(h: History, g: History, s: State, t: State, c: CallId,
                                         r: Option<Cell>, b: nat, b': nat)
    requires c < |s.calls| == |h.start| == |g.start| == |t.calls| && g.start[c] == h.start[c]
    requires t.calls[c].kind == s.calls[c].kind && t.calls[c].key == s.calls[c].key
    requires |h.maps| <= |g.maps| && g.maps[..|h.maps|] == h.maps && b <= b'
    requires (c in h.lin <==> c in g.lin) && (c in h.lin ==> g.lin[c] == h.lin[c])
    requires Settled(h, s, c, r, b)
    ensures Settled(g, t, c, r, b')
  {
    var k := s.calls[c].key;
    if !Writes(s.calls[c].kind, r) {
      SeenGrows(h, g, h.start[c], b, k, r);
      SeenWidens(g, h.start[c], b, b', k, r);
    } else {
      assert g.maps[h.lin[c]] == h.maps[h.lin[c]];
    }
  }

  lemma {:induction false} RangingStable(h: History, g: History, s: State, t: State, a: nat, b: nat, b': nat,
                                         rest: map<Key, EntryId>, out: Table)
    requires h.maps != [] && g.maps == h.maps + [Abs(t)] && a < |h.maps| && b <= b' <= |g.maps|
    requires |s.entries| <= |t.entries|
    requires forall e: EntryId :: e < |s.entries| ==> EntryRely(h, g, s, t, e)
    requires Ranging(h, s, a, b, rest, out)
    ensures Ranging(g, t, a, b', rest, out)
  {
    forall k | k in rest ensures rest[k] < |t.entries| && Watched(g, t, a, rest[k]) {
      WatchedStable(h, g, s, t, a, rest[k]);
    }
    forall k | k in out ensures Seen(g, a, b', k, Some(out[k])) {
      SeenGrows(h, g, a, b, k, Some(out[k]));
      SeenWidens(g, a, b, b', k, Some(out[k]));
    }
    forall k | !(k in rest || k in out) ensures Seen(g, a, b', k, None) {
      SeenGrows(h, g, a, b, k, None);
      SeenWidens(g, a, b, b', k, None);
    }
  }

  lemma {:induction false} UnlinkedStable(h: History, g: History, s: State, t: State, c: CallId, e: EntryId)
    requires h.maps != [] && Grows(h, g, t) && c < |s.calls| == |h.start| == |t.calls|
    requires t.calls[c].key == s.calls[c].key && e < |s.entries| <= |t.entries|
    requires Unlinked(h, s, c, e)
    requires PtrOf(t, e) == PtrOf(s, e) && e in g.owner && g.owner[e] == c
    requires (c in h.lin <==> c in g.lin) && (c in h.lin ==> g.lin[c] == h.lin[c])
    ensures Unlinked(g, t, c, e)
  {
    var k := s.calls[c].key;
    SeenGrows(h, g, h.start[c], |h.maps|, k, None);
    SeenWidens(g, h.start[c], |h.maps|, |g.maps|, k, None);
  }

  /** A step leaves what the history says of another call, unless it takes that call's unlinked value. */
  lemma {:induction false} ToldStable(h: History, g: History, s: State, t: State, c: CallId)
    requires h.maps != [] && Grows(h, g, t) && c < |s.calls| == |h.start| == |t.calls|
    requires h.start[c] < |h.maps| && t.calls[c] == s.calls[c] && |s.entries| <= |t.entries|
    requires forall e: EntryId :: e < |s.entries| ==> EntryRely(h, g, s, t, e)
    requires (c in h.lin <==> c in g.lin) && (c in h.lin ==> g.lin[c] == h.lin[c])
    requires c in h.end ==> c in g.end && g.end[c] == h.end[c]
    requires Owned(s.calls[c].pc).Some? ==>
               var e := Owned(s.calls[c].pc).value;
               PtrOf(t, e) == PtrOf(s, e) && (e in h.owner ==> e in g.owner && g.owner[e] == h.owner[e])
    requires Told(h, s, c)
    ensures Told(g, t, c)
  {
    match s.calls[c].pc
    case Done(r) => SettledStable(h, g, s, t, c, r, h.end[c], h.end[c]);
    case Miss(r) => SettledStable(h, g, s, t, c, r, |h.maps|, |g.maps|);
    case Unlock(Return(r)) => SettledStable(h, g, s, t, c, r, |h.maps|, |g.maps|);
    case Unlock(Probe(e, mode)) => HoldsWatchedStable(h, g, s, t, c, e, mode);
    case Try(e, mode) => HoldsWatchedStable(h, g, s, t, c, e, mode);
    case TryCas(e, _, mode) => HoldsWatchedStable(h, g, s, t, c, e, mode);
    case Unlock(Visit(rest)) => RangingStable(h, g, s, t, h.start[c], |h.maps|, |g.maps|, rest, map[]);
    case RangeLoop(rest, out) => RangingStable(h, g, s, t, h.start[c], |h.maps|, |g.maps|, rest, out);
    case RangeDone(out) => RangingStable(h, g, s, t, h.start[c], h.end[c], h.end[c], map[], out);
    case _ =>
  }

  lemma {:induction false} HoldsWatchedStable(h: History, g: History, s: State, t: State, c: CallId,
                                              e: EntryId, mode: Mode)
    requires h.maps != [] && Grows(h, g, t) && c < |s.calls| == |h.start| == |t.calls|
    requires h.start[c] < |h.maps| && t.calls[c].key == s.calls[c].key && |s.entries| <= |t.entries|
    requires HoldsWatched(h, s, c, e, mode) && EntryRely(h, g, s, t, e)
    requires (c in h.lin <==> c in g.lin) && (c in h.lin ==> g.lin[c] == h.lin[c])
    requires mode.Own? ==> PtrOf(t, e) == PtrOf(s, e) && (e in h.owner ==> e in g.owner && g.owner[e] == h.owner[e])
    ensures HoldsWatched(g, t, c, e, mode)
  {
    if mode.Own? {
      UnlinkedStable(h, g, s, t, c, e);
    } else {
      WatchedStable(h, g, s, t, h.start[c], e);
    }
  }
}
