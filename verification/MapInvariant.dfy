/** What every step of the concurrent map keeps about `read`, `dirty`, the lock and expunged entries.

    The invariant is aware of the lock: inside a critical section it is stated for the program point the
    holder has reached.  Other calls are covered by a rely condition that every step guarantees. */
module MapInvariant {
  import opened Basics
  import opened MapSpec
  import opened MapMachine

  // ----- where an entry can be

  ghost predicate InRead(s: State, e: EntryId) {
    e < |s.entries| && s.entries[e].key in s.read.m && s.read.m[s.entries[e].key] == e
  }

  ghost predicate InDirty(s: State, e: EntryId) {
    && e < |s.entries| && s.dirty.Some?
    && s.entries[e].key in s.dirty.value && s.dirty.value[s.entries[e].key] == e
  }

  /** An entry that a stale `read` snapshot may show: it is still there, or it is expunged. */
  ghost predicate Published(s: State, e: EntryId) {
    e < |s.entries| && (InRead(s, e) || PtrOf(s, e).Expunged?)
  }

  /** Dropped from `read` while expunged. */
  ghost predicate Gone(s: State, e: EntryId) {
    e < |s.entries| && !InRead(s, e) && PtrOf(s, e).Expunged?
  }

  /** Neither table has the entry and it is not expunged: a LoadAndDelete unlinked it. */
  ghost predicate Detached(s: State, e: EntryId) {
    e < |s.entries| && !InRead(s, e) && !InDirty(s, e) && !PtrOf(s, e).Expunged?
  }

  // ----- the tables

  predicate HoldsLock(pc: Pc) {
    match pc
    case Start => false
    case Wait => false
    case Try(_, mode) => mode.Held? || mode.HeldMiss?
    case TryCas(_, _, mode) => mode.Held? || mode.HeldMiss?
    case RangeLoop(_, _) => false
    case Done(_) => false
    case RangeDone(_) => false
    case _ => true
  }

  /** Keys of `read` that the lock holder has not yet filed in, or expunged from, `dirty`. */
  function Busy(s: State): set<Key> {
    if s.mu.None? || s.mu.value >= |s.calls| then {}
    else
      match s.calls[s.mu.value].pc
      case Relink(_) => {s.calls[s.mu.value].key}
      case DirtyLoop(todo) => todo
      case DirtyProbe(todo, _) => todo
      case DirtyCas(todo, _) => todo
      case _ => {}
  }

  predicate BuildsDirty(pc: Pc) {
    pc.DirtyLoop? || pc.DirtyProbe? || pc.DirtyCas? || pc.Amend?
  }

  /** The lock holder has made `dirty` but not yet marked `read` as amended. */
  ghost predicate Building(s: State) {
    s.mu.Some? && s.mu.value < |s.calls| && BuildsDirty(s.calls[s.mu.value].pc)
  }

  ghost predicate Filed(s: State, m: map<Key, EntryId>) {
    forall k :: k in m ==> m[k] < |s.entries| && s.entries[m[k]].key == k
  }

  /** An entry of `read` is expunged and absent from `dirty`, or not expunged and the same cell there. */
  ghost predicate Agrees(s: State, k: Key, busy: set<Key>)
    requires k in s.read.m && s.dirty.Some?
  {
    if k in busy then !PtrOf(s, s.read.m[k]).Expunged? && k !in s.dirty.value
    else if PtrOf(s, s.read.m[k]).Expunged? then k !in s.dirty.value
    else k in s.dirty.value && s.dirty.value[k] == s.read.m[k]
  }

  ghost predicate Tables(s: State, busy: set<Key>, building: bool) {
    && Filed(s, s.read.m)
    && Filed(s, DirtyTable(s))
    && (s.dirty.Some? <==> s.read.amended || building)
    && !(building && s.read.amended)
    && (s.dirty.None? ==> forall k :: k in s.read.m ==> !PtrOf(s, s.read.m[k]).Expunged?)
    && (s.dirty.Some? ==> forall k :: k in s.read.m ==> Agrees(s, k, busy))
    && (s.dirty.Some? ==>
          forall k :: k in s.dirty.value && k !in s.read.m ==>
            !building && !PtrOf(s, s.dirty.value[k]).Expunged?)
  }

  // ----- the calls

  predicate Inserts(kind: Kind) {
    kind.Swap? || kind.LoadOrStore?
  }

  /** Kinds that may end up holding an entry taken from `dirty` after the lock is released. */
  ghost predicate Follows(kind: Kind) {
    kind.Load? || kind.CompareAndDelete?
  }

  ghost predicate Holds(s: State, c: CallId, e: EntryId, mode: Mode)
    requires c < |s.calls|
  {
    var call := s.calls[c];
    && e < |s.entries|
    && s.entries[e].key == call.key
    && !call.kind.Range?
    && match mode
       case Fast => Follows(call.kind) || Published(s, e)
       case Own => call.kind.LoadAndDelete? && Detached(s, e)
       case Held =>
         && (call.kind.LoadOrStore? || call.kind.CompareAndSwap?)
         && InRead(s, e)
         && (call.kind.LoadOrStore? ==> !PtrOf(s, e).Expunged?)
       case HeldMiss =>
         && (call.kind.LoadOrStore? || call.kind.CompareAndSwap?)
         && call.key !in s.read.m && InDirty(s, e) && s.read.amended
  }

  /** What a compare-and-swap may expect to find. */
  ghost predicate Expects(kind: Kind, p: Ptr) {
    match kind
    case Load => false
    case Range => false
    case Swap => !p.Expunged?
    case LoadOrStore => p.Nil?
    case _ => p.Live?
  }

  /** The entries a Range has still to visit. */
  ghost predicate Visits(s: State, todo: map<Key, EntryId>) {
    Filed(s, todo) && forall k :: k in todo ==> Published(s, todo[k])
  }

  ghost predicate Local(s: State, c: CallId)
    requires c < |s.calls|
  {
    var k, kind := s.calls[c].key, s.calls[c].kind;
    match s.calls[c].pc
    case Start => true
    case Wait => true
    case Locked => true
    case Unexpunge(e) => Inserts(kind) && InRead(s, e) && s.entries[e].key == k
    case Relink(e) =>
      && Inserts(kind) && InRead(s, e) && s.entries[e].key == k
      && !PtrOf(s, e).Expunged? && s.dirty.Some?
    case SwapLocked(e) =>
      && kind.Swap? && e < |s.entries| && s.entries[e].key == k && !PtrOf(s, e).Expunged?
      && (InRead(s, e) || (k !in s.read.m && InDirty(s, e) && s.read.amended))
    case MissLookup =>
      && (kind.Load? || kind.LoadAndDelete? || kind.CompareAndDelete?)
      && k !in s.read.m && s.read.amended
    case DirtyBegin => Inserts(kind) && k !in s.read.m && !s.read.amended
    case DirtyLoop(todo) => Inserts(kind) && k !in s.read.m && todo <= s.read.m.Keys
    case DirtyProbe(todo, j) => Inserts(kind) && k !in s.read.m && todo <= s.read.m.Keys && j in todo
    case DirtyCas(todo, j) => Inserts(kind) && k !in s.read.m && todo <= s.read.m.Keys && j in todo
    case Amend => Inserts(kind) && k !in s.read.m
    case Insert => Inserts(kind) && k !in s.read.m && s.read.amended && k !in DirtyTable(s)
    case Try(e, mode) => Holds(s, c, e, mode)
    case TryCas(e, p, mode) => Holds(s, c, e, mode) && Expects(kind, p)
    case Miss(_) => (kind.LoadOrStore? || kind.CompareAndSwap?) && s.read.amended
    case Unlock(after) =>
      (match after
       case Return(_) => !kind.Range?
       case Probe(e, mode) => (mode.Fast? || mode.Own?) && Holds(s, c, e, mode)
       case Visit(rest) => kind.Range? && Visits(s, rest))
    case RangePromote => kind.Range? && s.read.amended
    case RangeLoop(rest, _) => kind.Range? && Visits(s, rest)
    case Done(_) => !kind.Range?
    case RangeDone(_) => kind.Range?
    case Faulted => false
  }

  ghost predicate Locking(s: State) {
    && (s.mu.Some? ==> s.mu.value < |s.calls|)
    && forall c :: 0 <= c < |s.calls| ==> (HoldsLock(s.calls[c].pc) <==> s.mu == Some(c))
  }

  ghost predicate Inv(s: State) {
    && Tables(s, Busy(s), Building(s))
    && Locking(s)
    && forall c :: 0 <= c < |s.calls| ==> Local(s, c)
  }

  // ----- rely and guarantee

  /** What a step of call `c` from `s` to `t` promises to every other call. */
  ghost predicate Rely(s: State, t: State, c: CallId) {
    && c < |s.calls| == |t.calls|
    && (forall d :: 0 <= d < |s.calls| && d != c ==> t.calls[d] == s.calls[d])
    && t.calls[c].kind == s.calls[c].kind && t.calls[c].key == s.calls[c].key
    && |s.entries| <= |t.entries|
    && (forall e :: 0 <= e < |s.entries| ==> t.entries[e].key == s.entries[e].key)
    && (forall e :: Published(s, e) ==> Published(t, e))
    && (forall e :: Detached(s, e) ==> Detached(t, e))
    && (forall e :: Gone(s, e) ==> Gone(t, e))
    && (s.mu == t.mu || (s.mu in {None, Some(c)} && t.mu in {None, Some(c)}))
    && (s.mu.Some? && s.mu != Some(c) ==> SameTables(s, t))
  }

  /** Both tables are the same and no entry became, or ceased to be, expunged. */
  ghost predicate SameTables(s: State, t: State) {
    && s.read == t.read && s.dirty == t.dirty
    && |s.entries| == |t.entries|
    && forall e :: 0 <= e < |s.entries| ==>
         t.entries[e].key == s.entries[e].key && (PtrOf(s, e).Expunged? <==> PtrOf(t, e).Expunged?)
  }

  lemma {:induction false} LocalStable(s: State, t: State, c: CallId, d: CallId)
    requires Rely(s, t, c) && Locking(s)
    requires d < |s.calls| && d != c && Local(s, d)
    ensures Local(t, d)
  {
  }

  /** The proof rule for one step: its own call's facts, the tables, and the guarantee to all others. */
  lemma {:induction false} StepKeeps(s: State, t: State, c: CallId)
    requires Inv(s) && Rely(s, t, c)
    requires Tables(t, Busy(t), Building(t))
    requires HoldsLock(t.calls[c].pc) <==> t.mu == Some(c)
    requires Local(t, c)
    ensures Inv(t)
  {
    forall d | 0 <= d < |t.calls| ensures Local(t, d) {
      if d != c { LocalStable(s, t, c, d); }
    }
  }

  /** Tables that stay the same stay right. */
  lemma {:induction false} SameTablesKeep(s: State, t: State, busy: set<Key>, building: bool)
    requires Tables(s, busy, building) && SameTables(s, t)
    ensures Tables(t, busy, building)
  {
    forall k | k in t.read.m ensures t.dirty.Some? ==> Agrees(t, k, busy) {
      assert t.dirty.Some? ==> Agrees(s, k, busy);
    }
  }
}
