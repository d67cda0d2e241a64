/** The concurrent map as a machine whose steps are the atomic actions of the source: one load, store, swap or
    compare-and-swap of `read` or of an entry, one lock or unlock, or one action on the state guarded by `mu`.
    Any number of calls may be in progress; a schedule is a sequence of actions. */
module MapMachine {
  import opened Basics
  import opened MapSpec

  type EntryId = nat

  /** The contents of `entry.p`. */
  datatype Ptr = Nil | Expunged | Live(cell: Cell)

  /** A heap-allocated entry, labelled with the only key it is ever filed under. */
  datatype Entry = Entry(key: Key, p: Ptr)

  datatype ReadOnly = ReadOnly(m: map<Key, EntryId>, amended: bool)

  /** How an entry was reached: without the lock; under the lock from `read`; under the lock from `dirty`
      (a miss is recorded afterwards); or unlinked from `dirty` by this very LoadAndDelete. */
  datatype Mode = Fast | Held | HeldMiss | Own

  /** What follows `m.mu.Unlock()`. */
  datatype After = Return(r: Option<Cell>) | Probe(e: EntryId, mode: Mode) | Visit(rest: map<Key, EntryId>)

  /** Where a call is.  `r` is what the table gave it under its key; the pair that the source returns (a value, or
      the caller's own for LoadOrStore, and whether there was one) follows from `r`. */
  datatype Pc =
    | Start                                  // m.loadReadOnly(), lock not held
    | Wait                                   // m.mu.Lock()
    | Locked                                 // m.loadReadOnly(), lock held, and the branch on it
    | Unexpunge(e: EntryId)                  // e.unexpungeLocked()
    | Relink(e: EntryId)                     // m.dirty[key] = e
    | SwapLocked(e: EntryId)                 // e.swapLocked(&value)
    | MissLookup                             // m.dirty[key], the delete of LoadAndDelete, m.missLocked()
    | DirtyBegin                             // dirtyLocked: allocate
    | DirtyLoop(todo: set<Key>)              // dirtyLocked: range over read.m
    | DirtyProbe(todo: set<Key>, j: Key)     // tryExpungeLocked: load
    | DirtyCas(todo: set<Key>, j: Key)       // tryExpungeLocked: compare-and-swap nil to expunged
    | Amend                                  // m.read.Store with amended set
    | Insert                                 // m.dirty[key] = newEntry(value)
    | Try(e: EntryId, mode: Mode)            // entry loops: load
    | TryCas(e: EntryId, p: Ptr, mode: Mode) // entry loops: compare-and-swap
    | Miss(r: Option<Cell>)                  // m.missLocked() after an entry loop
    | Unlock(after: After)                   // m.mu.Unlock()
    | RangePromote                           // Range: promote dirty
    | RangeLoop(rest: map<Key, EntryId>, out: Table)
    | Done(r: Option<Cell>)
    | RangeDone(out: Table)
    | Faulted                                // a write to a nil map, or the discarded `ok` was false

  datatype Call = Call(kind: Kind, key: Key, val: Val, pc: Pc)

  datatype State = State(
    read: ReadOnly,
    dirty: Option<map<Key, EntryId>>,
    misses: nat,
    mu: Option<CallId>,
    entries: seq<Entry>,
    calls: seq<Call>)

  datatype Action = Invoke(kind: Kind, key: Key, val: Val) | Step(c: CallId, pick: Key)

  const INIT: State := State(ReadOnly(map[], false), None, 0, None, [], [])

  // ----- reading and writing parts of the state

  function PtrOf(s: State, e: EntryId): Ptr {
    if e < |s.entries| then s.entries[e].p else Nil
  }

  function SetPtr(s: State, e: EntryId, p: Ptr): State {
    if e < |s.entries| then s.(entries := s.entries[e := s.entries[e].(p := p)]) else s
  }

  function Goto(s: State, c: CallId, pc: Pc): State
    requires c < |s.calls|
  {
    s.(calls := s.calls[c := s.calls[c].(pc := pc)])
  }

  function ValueOf(p: Ptr): Option<Cell> {
    if p.Live? then Some(p.cell) else None
  }

  function DirtyTable(s: State): map<Key, EntryId> {
    if s.dirty.Some? then s.dirty.value else map[]
  }

  /** The value a lookup under `k` is entitled to: `read` first, then `dirty` when `read` is amended. */
  function At(s: State, k: Key): Option<Cell> {
    if k in s.read.m then ValueOf(PtrOf(s, s.read.m[k]))
    else if s.read.amended && k in DirtyTable(s) then ValueOf(PtrOf(s, DirtyTable(s)[k]))
    else None
  }

  /** The abstract table. */
  function Abs(s: State): Table {
    map k | k in s.read.m.Keys + DirtyTable(s).Keys && At(s, k).Some? :: At(s, k).value
  }

  // ----- one function per program point

  function FastLookup(s: State, c: CallId): Pc
    requires c < |s.calls|
  {
    var call := s.calls[c];
    if call.kind.Range? then (if s.read.amended then Wait else RangeLoop(s.read.m, map[]))
    else if call.key in s.read.m then Try(s.read.m[call.key], Fast)
    else if s.read.amended || call.kind.Swap? || call.kind.LoadOrStore? then Wait
    else Done(None)
  }

  function LockedLookup(s: State, c: CallId): Pc
    requires c < |s.calls|
  {
    var call := s.calls[c];
    var k, inRead, d := call.key, call.key in s.read.m, DirtyTable(s);
    match call.kind
    case Range =>
      if s.read.amended then RangePromote else Unlock(Visit(s.read.m))
    case Load => LookupOrMiss(s, k)
    case LoadAndDelete => LookupOrMiss(s, k)
    case CompareAndDelete => LookupOrMiss(s, k)
    case Swap =>
      if inRead then Unexpunge(s.read.m[k])
      else if k in d then SwapLocked(d[k])
      else if s.read.amended then Insert else DirtyBegin
    case LoadOrStore =>
      if inRead then Unexpunge(s.read.m[k])
      else if k in d then Try(d[k], HeldMiss)
      else if s.read.amended then Insert else DirtyBegin
    case CompareAndSwap =>
      if inRead then Try(s.read.m[k], Held)
      else if k in d then Try(d[k], HeldMiss)
      else Unlock(Return(None))
  }

  function LookupOrMiss(s: State, k: Key): Pc {
    if k in s.read.m then Unlock(Probe(s.read.m[k], Fast))
    else if s.read.amended then MissLookup
    else Unlock(Return(None))
  }

  /** Swap and LoadOrStore continue on an entry of `read` that is not expunged. */
  function OnEntry(kind: Kind, e: EntryId): Pc {
    if kind.Swap? then SwapLocked(e) else Try(e, Held)
  }

  function DoUnexpunge(s: State, c: CallId, e: EntryId): State
    requires c < |s.calls|
  {
    if PtrOf(s, e).Expunged? then Goto(SetPtr(s, e, Nil), c, Relink(e))
    else Goto(s, c, OnEntry(s.calls[c].kind, e))
  }

  function DoRelink(s: State, c: CallId, e: EntryId): State
    requires c < |s.calls|
  {
    if s.dirty.None? then Goto(s, c, Faulted)
    else Goto(s.(dirty := Some(s.dirty.value[s.calls[c].key := e])), c, OnEntry(s.calls[c].kind, e))
  }

  function NewPtr(s: State, c: CallId): Ptr
    requires c < |s.calls|
  {
    if Deletes(s.calls[c].kind) then Nil else Live(Cell(c, s.calls[c].val))
  }

  function DoSwapLocked(s: State, c: CallId, e: EntryId): State
    requires c < |s.calls|
  {
    Goto(SetPtr(s, e, NewPtr(s, c)), c, Unlock(Return(ValueOf(PtrOf(s, e)))))
  }

  /** missLocked with `d` the contents of `dirty`. */
  function MissLocked(s: State, d: map<Key, EntryId>): State {
    if s.misses + 1 < |d| then s.(dirty := Some(d), misses := s.misses + 1)
    else s.(read := ReadOnly(d, false), dirty := None, misses := 0)
  }

  function DoMissLookup(s: State, c: CallId): State
    requires c < |s.calls|
  {
    var k, d, unlink := s.calls[c].key, DirtyTable(s), s.calls[c].kind.LoadAndDelete?;
    var after := if k in d then Probe(d[k], if unlink then Own else Fast) else Return(None);
    Goto(MissLocked(s, if unlink then d - {k} else d), c, Unlock(after))
  }

  function DoDirtyBegin(s: State, c: CallId): State
    requires c < |s.calls|
  {
    if s.dirty.Some? then Goto(s, c, Amend)
    else Goto(s.(dirty := Some(map[])), c, DirtyLoop(s.read.m.Keys))
  }

  function DoDirtyLoop(s: State, c: CallId, todo: set<Key>, pick: Key): State
    requires c < |s.calls|
  {
    if todo == {} then Goto(s, c, Amend)
    else if pick in todo then Goto(s, c, DirtyProbe(todo, pick))
    else s
  }

  function DoDirtyProbe(s: State, c: CallId, todo: set<Key>, j: Key): State
    requires c < |s.calls|
  {
    if j !in s.read.m || s.dirty.None? then Goto(s, c, Faulted)
    else
      match PtrOf(s, s.read.m[j])
      case Nil => Goto(s, c, DirtyCas(todo, j))
      case Expunged => Goto(s, c, DirtyLoop(todo - {j}))
      case Live(_) => Goto(s.(dirty := Some(s.dirty.value[j := s.read.m[j]])), c, DirtyLoop(todo - {j}))
  }

  function DoDirtyCas(s: State, c: CallId, todo: set<Key>, j: Key): State
    requires c < |s.calls|
  {
    if j !in s.read.m then Goto(s, c, Faulted)
    else if PtrOf(s, s.read.m[j]).Nil? then
      Goto(SetPtr(s, s.read.m[j], Expunged), c, DirtyLoop(todo - {j}))
    else Goto(s, c, DirtyProbe(todo, j))
  }

  function DoAmend(s: State, c: CallId): State
    requires c < |s.calls|
  {
    Goto(s.(read := s.read.(amended := true)), c, Insert)
  }

  function DoInsert(s: State, c: CallId): State
    requires c < |s.calls|
  {
    if s.dirty.None? then Goto(s, c, Faulted)
    else
      var call := s.calls[c];
      Goto(s.(entries := s.entries + [Entry(call.key, NewPtr(s, c))],
              dirty := Some(s.dirty.value[call.key := |s.entries|])),
           c, Unlock(Return(None)))
  }

  /** Where a finished entry loop goes. */
  function Finish(mode: Mode, r: Option<Cell>): Pc {
    match mode
    case Fast => Done(r)
    case Own => Done(r)
    case Held => Unlock(Return(r))
    case HeldMiss => Miss(r)
  }

  function DoTry(s: State, c: CallId, e: EntryId, mode: Mode): State
    requires c < |s.calls|
  {
    Goto(s, c, TryLoad(s.calls[c].kind, e, mode, PtrOf(s, e)))
  }

  function TryLoad(kind: Kind, e: EntryId, mode: Mode, p: Ptr): Pc {
    match kind
    case Load => Finish(mode, ValueOf(p))
    case Range => Faulted
    case Swap => if p.Expunged? then Retry(mode) else TryCas(e, p, mode)
    case LoadOrStore =>
      if p.Expunged? then Retry(mode)
      else if p.Live? then Finish(mode, ValueOf(p))
      else TryCas(e, p, mode)
    case LoadAndDelete => if p.Live? then TryCas(e, p, mode) else Finish(mode, None)
    case CompareAndSwap => if p.Live? then TryCas(e, p, mode) else Finish(mode, None)
    case CompareAndDelete => if p.Live? then TryCas(e, p, mode) else Finish(mode, None)
  }

  /** An expunged entry sends the fast path to the lock; under the lock the source discards the outcome. */
  function Retry(mode: Mode): Pc {
    if mode.Fast? then Wait else Faulted
  }

  function DoTryCas(s: State, c: CallId, e: EntryId, p: Ptr, mode: Mode): State
    requires c < |s.calls|
  {
    if PtrOf(s, e) == p then Goto(SetPtr(s, e, NewPtr(s, c)), c, Finish(mode, ValueOf(p)))
    else Goto(s, c, Try(e, mode))
  }

  function DoUnlock(s: State, c: CallId, after: After): State
    requires c < |s.calls|
  {
    var pc :=
      match after
      case Return(r) => Done(r)
      case Probe(e, mode) => Try(e, mode)
      case Visit(todo) => RangeLoop(todo, map[]);
    Goto(s.(mu := None), c, pc)
  }

  function DoRangePromote(s: State, c: CallId): State
    requires c < |s.calls|
  {
    Goto(s.(read := ReadOnly(DirtyTable(s), false), dirty := None, misses := 0),
         c, Unlock(Visit(DirtyTable(s))))
  }

  /** Range passes a live entry to the callback; `out` is what the callback has been given. */
  function DoRangeLoop(s: State, c: CallId, todo: map<Key, EntryId>, out: Table, pick: Key): State
    requires c < |s.calls|
  {
    if todo == map[] then Goto(s, c, RangeDone(out))
    else if pick in todo then
      var v := ValueOf(PtrOf(s, todo[pick]));
      Goto(s, c, RangeLoop(todo - {pick}, if v.Some? then out[pick := v.value] else out))
    else s
  }

  /** One step of call `c`.  A call that cannot move (it waits for the lock, has returned, or `pick` is not a
      key still to be visited) leaves the state as it is. */
  function StepCall(s: State, c: CallId, pick: Key): (t: State)
    requires c < |s.calls|
    ensures |t.calls| == |s.calls|
  {
    match s.calls[c].pc
    case Start => Goto(s, c, FastLookup(s, c))
    case Wait => if s.mu.None? then Goto(s.(mu := Some(c)), c, Locked) else s
    case Locked => Goto(s, c, LockedLookup(s, c))
    case Unexpunge(e) => DoUnexpunge(s, c, e)
    case Relink(e) => DoRelink(s, c, e)
    case SwapLocked(e) => DoSwapLocked(s, c, e)
    case MissLookup => DoMissLookup(s, c)
    case DirtyBegin => DoDirtyBegin(s, c)
    case DirtyLoop(todo) => DoDirtyLoop(s, c, todo, pick)
    case DirtyProbe(todo, j) => DoDirtyProbe(s, c, todo, j)
    case DirtyCas(todo, j) => DoDirtyCas(s, c, todo, j)
    case Amend => DoAmend(s, c)
    case Insert => DoInsert(s, c)
    case Try(e, mode) => DoTry(s, c, e, mode)
    case TryCas(e, p, mode) => DoTryCas(s, c, e, p, mode)
    case Miss(r) => Goto(MissLocked(s, DirtyTable(s)), c, Unlock(Return(r)))
    case Unlock(after) => DoUnlock(s, c, after)
    case RangePromote => DoRangePromote(s, c)
    case RangeLoop(todo, out) => DoRangeLoop(s, c, todo, out, pick)
    case Done(_) => s
    case RangeDone(_) => s
    case Faulted => s
  }

  function Next(s: State, a: Action): State {
    match a
    case Invoke(kind, key, val) => s.(calls := s.calls + [Call(kind, key, val, Start)])
    case Step(c, pick) => if c < |s.calls| then StepCall(s, c, pick) else s
  }

  function Run(acts: seq<Action>): State {
    if acts == [] then INIT else Next(Run(acts[..|acts| - 1]), acts[|acts| - 1])
  }

  /** A call as its caller makes it. */
  datatype Request = Request(kind: Kind, key: Key, val: Val)

  /** The calls that a schedule makes, in order. */
  function Made(acts: seq<Action>): seq<Request> {
    if acts == [] then []
    else
      var a := acts[|acts| - 1];
      Made(acts[..|acts| - 1]) + if a.Invoke? then [Request(a.kind, a.key, a.val)] else []
  }
}
