/** The history of a run: the abstract table after every action, when each call began and returned, and at
    which action each writing call took effect.  The machine never reads it.

    One assignment is revised afterwards: when a CompareAndDelete empties an entry that a LoadAndDelete has
    already unlinked, the unlinking becomes the effect of the CompareAndDelete (which had fetched the entry
    before the unlinking), and the LoadAndDelete becomes one that found nothing. */
module MapHistory {
  import opened Basics
  import opened MapSpec
  import opened MapMachine
  import opened MapInvariant

  datatype History = History(
    maps: seq<Table>,               // maps[i] is the abstract table after i actions
    start: seq<nat>,                // call c exists from state start[c] on
    end: map<CallId, nat>,          // call c has returned in state end[c]
    writer: seq<Option<CallId>>,    // which call's write, if any, is the action from state i to i + 1
    lin: map<CallId, nat>,          // the inverse of writer
    owner: map<EntryId, CallId>)    // the LoadAndDelete that unlinked an entry

  const NO_HISTORY: History := History([map[]], [], map[], [], map[], map[])

  /** The entry a LoadAndDelete has unlinked and has still to empty. */
  function Owned(pc: Pc): Option<EntryId> {
    match pc
    case Try(e, Own) => Some(e)
    case TryCas(e, _, Own) => Some(e)
    case Unlock(Probe(e, Own)) => Some(e)
    case _ => None
  }

  /** The entry this step unlinks from `dirty`, if any. */
  function Unlinks(s: State, c: CallId): Option<EntryId>
    requires c < |s.calls|
  {
    var call := s.calls[c];
    if call.pc.MissLookup? && call.kind.LoadAndDelete? && call.key in DirtyTable(s)
    then Some(DirtyTable(s)[call.key]) else None
  }

  /** The entry on which this step's compare-and-swap succeeds, for a call that has not yet taken effect. */
  function Hits(s: State, c: CallId): Option<EntryId>
    requires c < |s.calls|
  {
    match s.calls[c].pc
    case TryCas(e, p, mode) => if mode != Own && PtrOf(s, e) == p then Some(e) else None
    case _ => None
  }

  /** The LoadAndDelete from which this step takes the unlinked value. */
  ghost function Victim(h: History, s: State, c: CallId): Option<CallId>
    requires c < |s.calls|
  {
    var e := Hits(s, c);
    if e.Some? && Detached(s, e.value) && e.value in h.owner && h.owner[e.value] in h.lin
    then Some(h.owner[e.value]) else None
  }

  /** Does this step change the abstract table? */
  ghost predicate Commits(h: History, s: State, c: CallId)
    requires c < |s.calls|
  {
    || s.calls[c].pc.SwapLocked?
    || s.calls[c].pc.Insert?
    || (Hits(s, c).Some? && Victim(h, s, c).None?)
    || (Unlinks(s, c).Some? && ValueOf(PtrOf(s, Unlinks(s, c).value)).Some?)
  }

  predicate Returned(pc: Pc) {
    pc.Done? || pc.RangeDone?
  }

  /** The history after one step of call `c` from `s` to `t`. */
  ghost function NoteStep(h: History, s: State, t: State, c: CallId): History
    requires h.maps != [] && c < |s.calls| == |t.calls|
  {
    var now := |h.maps| - 1;
    var v := Victim(h, s, c);
    var g := h.(
      maps := h.maps + [Abs(t)],
      end := if Returned(t.calls[c].pc) && !Returned(s.calls[c].pc) then h.end[c := now + 1] else h.end,
      owner := if Unlinks(s, c).Some? then h.owner[Unlinks(s, c).value := c] else h.owner);
    if v.Some? && h.lin[v.value] < |h.writer| then
      g.(writer := h.writer[h.lin[v.value] := Some(c)] + [None],
         lin := (h.lin - {v.value})[c := h.lin[v.value]])
    else if Commits(h, s, c) then
      g.(writer := h.writer + [Some(c)], lin := h.lin[c := now])
    else
      g.(writer := h.writer + [None])
  }

  ghost function NoteInvoke(h: History, t: State): History {
    h.(maps := h.maps + [Abs(t)], start := h.start + [|h.maps|], writer := h.writer + [None])
  }

  ghost function Note(h: History, s: State, a: Action): (g: History)
    requires h.maps != []
    ensures g.maps == h.maps + [Abs(Next(s, a))]
  {
    var t := Next(s, a);
    match a
    case Invoke(_, _, _) => NoteInvoke(h, t)
    case Step(c, _) => if c < |s.calls| then NoteStep(h, s, t, c)
                       else h.(maps := h.maps + [Abs(t)], writer := h.writer + [None])
  }

  ghost function RunHistory(acts: seq<Action>): (h: History)
    ensures h.maps != []
  {
    if acts == [] then NO_HISTORY
    else
      var before := acts[..|acts| - 1];
      Note(RunHistory(before), Run(before), acts[|acts| - 1])
  }

  // ----- what the history says about the calls

  /** The table gave `r` under `k` in some state from `a` up to, not including, `b`. */
  ghost predicate Seen(h: History, a: nat, b: nat, k: Key, r: Option<Cell>) {
    exists i :: a <= i < b && i < |h.maps| && Get(h.maps[i], k) == r
  }

  /** The writes in the history are those of distinct calls, each with the effect a plain table gives it. */
  ghost predicate LogOk(h: History, s: State) {
    && |h.maps| == |h.writer| + 1
    && |h.start| == |s.calls|
    && h.maps[0] == map[]
    && h.maps[|h.writer|] == Abs(s)
    && (forall c :: 0 <= c < |h.start| ==> h.start[c] <= |h.writer|)
    && (forall c :: c in h.lin ==> c < |s.calls|)
    && (forall i :: 0 <= i < |h.writer| && h.writer[i].None? ==> h.maps[i + 1] == h.maps[i])
    && (forall i :: 0 <= i < |h.writer| && h.writer[i].Some? ==>
          h.writer[i].value in h.lin && h.lin[h.writer[i].value] == i)
    && (forall c :: c in h.lin ==> TakesEffect(h, s.calls, c))
  }

  ghost predicate TakesEffect(h: History, calls: seq<Call>, c: CallId)
    requires |h.maps| == |h.writer| + 1 && c in h.lin && c < |calls| == |h.start|
  {
    var i, call := h.lin[c], calls[c];
    && i < |h.writer| && h.writer[i] == Some(c)
    && h.start[c] <= i
    && Writes(call.kind, Get(h.maps[i], call.key))
    && h.maps[i + 1] == Apply(call.kind, call.key, call.val, c, h.maps[i])
  }

  /** The result `r` of call `c` is right: a write found it when it took effect; otherwise the table gave it
      while the call was in progress, before state `b`. */
  ghost predicate Settled(h: History, s: State, c: CallId, r: Option<Cell>, b: nat)
    requires c < |s.calls| == |h.start|
  {
    var call := s.calls[c];
    if Writes(call.kind, r)
    then c in h.lin && h.lin[c] < b && h.lin[c] < |h.maps| && Get(h.maps[h.lin[c]], call.key) == r
    else c !in h.lin && Seen(h, h.start[c], b, call.key, r)
  }

  ghost predicate Linked(s: State, e: EntryId) {
    InRead(s, e) || (InDirty(s, e) && s.entries[e].key !in s.read.m && s.read.amended)
  }

  /** What is known of an entry that a call holds without having taken effect: the table gave its value
      under its key while the call was in progress, and nothing if the entry is in neither table. */
  ghost predicate Watched(h: History, s: State, a: nat, e: EntryId)
    requires e < |s.entries|
  {
    var k, p := s.entries[e].key, PtrOf(s, e);
    && Seen(h, a, |h.maps|, k, ValueOf(p))
    && (!Linked(s, e) ==> Seen(h, a, |h.maps|, k, None))
    && (Detached(s, e) && p.Live? ==> e in h.owner && h.owner[e] in h.lin && a <= h.lin[h.owner[e]])
  }

  /** What is known of an entry that a LoadAndDelete has unlinked. */
  ghost predicate Unlinked(h: History, s: State, c: CallId, e: EntryId)
    requires c < |s.calls| == |h.start| && e < |s.entries|
  {
    var k, p := s.calls[c].key, PtrOf(s, e);
    && e in h.owner && h.owner[e] == c
    && Seen(h, h.start[c], |h.maps|, k, None)
    && (p.Live? ==> c in h.lin && h.lin[c] < |h.maps| && Get(h.maps[h.lin[c]], k) == Some(p.cell))
    && (p.Nil? ==> c !in h.lin)
  }

  /** A Range begun at `a`, before state `b`: what it has reported was there, and what it neither reports nor
      will visit was missing, at some time since. */
  ghost predicate Ranging(h: History, s: State, a: nat, b: nat, rest: map<Key, EntryId>, out: Table) {
    && (forall k :: k in rest ==> rest[k] < |s.entries| && Watched(h, s, a, rest[k]))
    && (forall k :: k in out ==> Seen(h, a, b, k, Some(out[k])))
    && (forall k :: k in rest || k in out || Seen(h, a, b, k, None))
  }

  ghost predicate HoldsWatched(h: History, s: State, c: CallId, e: EntryId, mode: Mode)
    requires c < |s.calls| == |h.start|
  {
    && e < |s.entries|
    && if mode.Own? then Unlinked(h, s, c, e) else c !in h.lin && Watched(h, s, h.start[c], e)
  }

  ghost predicate Told(h: History, s: State, c: CallId)
    requires c < |s.calls| == |h.start|
  {
    match s.calls[c].pc
    case Done(r) => c in h.end && h.end[c] < |h.maps| && Settled(h, s, c, r, h.end[c])
    case Miss(r) => Settled(h, s, c, r, |h.maps|)
    case Unlock(Return(r)) => Settled(h, s, c, r, |h.maps|)
    case Unlock(Probe(e, mode)) => HoldsWatched(h, s, c, e, mode)
    case Try(e, mode) => HoldsWatched(h, s, c, e, mode)
    case TryCas(e, _, mode) => HoldsWatched(h, s, c, e, mode)
    case Unlock(Visit(rest)) => c !in h.lin && Ranging(h, s, h.start[c], |h.maps|, rest, map[])
    case RangeLoop(rest, out) => c !in h.lin && Ranging(h, s, h.start[c], |h.maps|, rest, out)
    case RangeDone(out) =>
      c in h.end && h.end[c] < |h.maps| && c !in h.lin && Ranging(h, s, h.start[c], h.end[c], map[], out)
    case _ => c !in h.lin
  }

  /** A value in a detached entry is still to be claimed by the LoadAndDelete that unlinked it. */
  ghost predicate Claimed(h: History, s: State) {
    forall e: EntryId :: Detached(s, e) && PtrOf(s, e).Live? ==>
      e in h.owner && h.owner[e] < |s.calls| && Owned(s.calls[h.owner[e]].pc) == Some(e)
  }

  ghost predicate Ended(h: History, s: State) {
    forall c :: c in h.end ==> c < |s.calls| && Returned(s.calls[c].pc) && h.end[c] < |h.maps|
  }

  ghost predicate HInv(h: History, s: State) {
    && LogOk(h, s)
    && Ended(h, s)
    && Claimed(h, s)
    && forall c :: 0 <= c < |s.calls| ==> Told(h, s, c)
  }
}
