# NetHive: proofs about its concurrent core

NetHive is a peer-to-peer VPN. This project models the four components of it that keep state of their own, and proves
what they are for.

* **The concurrent map** of `pkgs/xsync`, twice. `MapMachine` has one step per atomic load, store, swap or
  compare-and-swap and per action under the mutex, for any number of calls; a run is a sequence of such steps.
  `MapInvariant` and `MapSteps` carry a lock-aware invariant with a rely and guarantee between calls; `MapHistory` to
  `MapRuns` follow the abstract table through the run; `MapLog` and `MapTheorems` build the sequential log that makes the
  map linearizable; `MapSafety`, `MapCost` and `MapProgress` hold the other properties. `SyncMap` is the same
  map as an object with heap-allocated entries, used by one goroutine, refining a plain map.
* **The ring buffer** of `pkgs/ringbuffer`. `RingBuffer` is the object over an array, refining a bounded FIFO through
  `RingLayout`. `RingBlocking` is the blocking mode: calls interleave at `Cond.Wait`. `RingCalls` says what
  each call gets, `RingSafety`, `RingStream` and `RingWriters` hold what every run keeps, and `RingRefinement` shows that
  the object takes the steps of the protocol.
* **The packet router** of `core/engine`. `PacketMem` has the payloads, buffers, free pools, channels and hands;
  `Router` the goroutines as a machine, with the network and the device as choices of the schedule; `RouterMemory`,
  `RouterTables`, `RouterSafety`, `RouterOrder` and `RouterInbound` what every run keeps; `RouterPeers` and `RouterRaces`
  when a peer gets its packets in order and when it need not; `RouterHandlers` one run in which it does not;
  `RouterProgress` what each goroutine gets done, and `RouterReconnect` one run through a dead connection.
* **The linked list** of `pkgs/list`: `LinkedList`, a ring of heap elements through a sentinel, refining a sequence of
  element handles.

`dafny verify dfyconfig.toml` checks all of it.

Where the code and its comments differ, the code is modelled:

* `CompareAndSwap` and `CompareAndDelete` say that they compare with `old`; the code does not look at it. They are
  specified as swap-if-present and delete-if-present, with the exact condition under which that is what the comment
  says, and with an input on which it is not (`SwapsUnexpected`, `DeletesUnexpected`).
* `CloseWithError` says that it never overwrites an error; it overwrites EOF with another error (`EofIsOverwritten`).
  The exact condition is part of its contract; the order proved is nil, EOF, other.
* A `CompareAndDelete` can empty an entry that a `LoadAndDelete` has already unlinked but not yet emptied. The
  `LoadAndDelete` then reports nothing and the `CompareAndDelete` success; the log gives the unlinking to the latter.
* `ReadByte` frees space without waking writers. `NextSleepOk` says exactly when this loses a wake-up, and
  `ReadByteLosesAWakeUp` is a run in which it does.
* In blocking mode `WriteByte`, and `Write` in its last round, can report a final error for bytes that they have just put
  in. `MisreportsExactly` says exactly when, `WriteByteMisreports` is a run in which it happens, and `StreamIsFifo`
  counts the bytes of a call and not its error.
* An inbound handler drains the same channel as a connection, so a peer can get its packets out of order. `RouterPeers`
  and `RouterRaces` say which states are to blame, in both directions; `HandlersLoseTheOrder` is a run.

## Model

| member | source | states |
|---|---|---|
| MapTheorems.Linearizable | pkgs/xsync/map.go:122-446 | For every schedule of any number of Load, Swap, LoadOrStore, LoadAndDelete, CompareAndSwap, CompareAndDelete and Range calls, step by atomic step, the calls of the run are those that the schedule makes, with their keys and values, and there is a sequential log of the plain table that contains every returned result, orders a call that returned before another was made before it, has no call twice, and ends in the table the map now stands for. CompareAndSwap and CompareAndDelete appear as swap-if-present and delete-if-present |
| MapTheorems.CallsAreAsMade | pkgs/xsync/map.go:122-459 | No call turns into another: in every run the calls are exactly those made, in order, with their kind, key and value |
| MapProgress.StepNearer | pkgs/xsync/map.go:122-525 | Every step of a call that the lock does not keep waiting brings it nearer to its end, in a fixed measure: a failed compare-and-swap costs one more load, an expunged entry one trip to the lock, each entry copied or visited its share |
| MapProgress.CallReturnsAlone | pkgs/xsync/map.go:122-490 | From every reachable state a call that finds the lock free, or holds it, returns when it alone takes enough steps, and leaves the lock free and the other calls where they were |
| MapProgress.AllCallsCanReturn | pkgs/xsync/map.go:122-490 | No deadlock: from every reachable state, whoever holds the lock, steps of the calls in progress bring all of them to return |
| MapSafety.EachActionIsOneWrite | pkgs/xsync/map.go:122-446 | Each atomic action either leaves the abstract table unchanged or makes exactly the change of one call that is in progress at that moment |
| MapSafety.ResultsWereGiven | pkgs/xsync/map.go:122-379 | Every returned result is what the abstract table gave under the key in some state between the call's start and its return, also when it was read through a stale `read` snapshot |
| MapRuns.RunTells | pkgs/xsync/map.go:122-490 | The history of every run is consistent with the machine: writes are made by distinct calls, values in unlinked entries are still to be claimed by the LoadAndDelete that unlinked them, and every call in progress knows only what the table gave since it began |
| MapLog.LogInOrder | pkgs/xsync/map.go:122-446 | A timeline (for each call one moment inside its interval) gives a log that replays on the plain table from empty to the final table and contains each call of the timeline once, in order |
| MapLinear.LogSteal | pkgs/xsync/map.go:308-319 | A CompareAndDelete that empties an entry which a LoadAndDelete has already unlinked takes over that call's place in the history, and the history stays legal |
| MapWrites.VictimFound | pkgs/xsync/map.go:278-301 | When CompareAndDelete finds a value in an entry that neither table has, exactly one LoadAndDelete under the same key unlinked it, and it did so while the CompareAndDelete was in progress |
| MapWrites.UnlinkTells | pkgs/xsync/map.go:278-301 | The dirty path of LoadAndDelete takes effect at the locked unlink, and the value it will report is the one the table had then |
| MapWrites.OwnTells | pkgs/xsync/map.go:308-319 | Emptying the entry afterwards changes no lookup and reports the value of the unlink |
| MapWrites.SwapLockedTells | pkgs/xsync/map.go:200-202 | A swap under the lock takes effect on the entry the table shows for the key |
| MapWrites.InsertTells | pkgs/xsync/map.go:368-376 | Filing a new entry in `dirty` is the write of the inserting call and spares every call in progress |
| MapWrites.TryCasHitTells | pkgs/xsync/map.go:325-335 | A successful compare-and-swap, through whatever snapshot the entry was reached, is either the write of its call or takes over the write of the LoadAndDelete that unlinked the entry |
| MapQuietSteps.TryTells | pkgs/xsync/map.go:148-155 | Loading an entry reached through a stale snapshot gives a value the table showed while the call was in progress |
| MapTableSteps.MissTells | pkgs/xsync/map.go:492-500 | Promotion by missLocked changes no lookup and invalidates no call in progress |
| MapTableSteps.DirtyCasTells | pkgs/xsync/map.go:516-525 | Expunging an empty entry changes no lookup and invalidates no call in progress |
| MapSteps.RunKeeps | pkgs/xsync/map.go:37-104 | The lock-aware invariant of `read`, `dirty`, expunged entries and the program point of every call holds after every schedule |
| MapSteps.StepCallKeeps | pkgs/xsync/map.go:122-525 | Each atomic step of each call keeps the invariant, and guarantees to every other call that published entries stay published or expunged, dropped ones stay expunged, and tables change only by the lock holder |
| MapInvariant.LocalStable | pkgs/xsync/map.go:37-104 | What a call knows at its program point survives any step of any other call |
| MapSteps.UnexpungeKeeps | pkgs/xsync/map.go:193-195 | Between unexpunging an entry and filing it in `dirty` the invariant holds with that one key excepted |
| MapSteps.RelinkKeeps | pkgs/xsync/map.go:353-358 | Filing the unexpunged entry in `dirty` restores the invariant; `dirty` is not nil there |
| MapSteps.DirtyProbeKeeps | pkgs/xsync/map.go:502-514 | Inside the loop of dirtyLocked the invariant holds with the keys still to be scanned excepted |
| MapSteps.MissLockedKeeps | pkgs/xsync/map.go:492-500 | Promotion keeps the invariant: what `read` drops is expunged |
| MapSafety.NeverFaults | pkgs/xsync/map.go:217-236 | No run writes to a nil `dirty`, and the `ok` that LoadOrStore discards under the lock is always true |
| MapSafety.TablesAgree | pkgs/xsync/map.go:51-61 | Whenever the lock is free, `amended` holds exactly when `dirty` is not nil, and each entry of `read` is expunged and absent from `dirty`, or not expunged and the same entry there |
| MapSafety.StaleEntriesStayExpunged | pkgs/xsync/map.go:85-103 | An entry that has once been in `read.m` is still there or expunged for ever, so no compare-and-swap through an old snapshot can store into a dropped entry |
| MapSafety.TakenOnce | pkgs/xsync/map.go:308-335 | No two calls, of whatever kind, both report the same stored value as removed or replaced |
| MapSafety.NothingLost | pkgs/xsync/map.go:492-525 | A value that was stored is still in the table, or one atomic action since was the write of a call under the same key, then in progress, that found this very value and removed or replaced it, and that reports it if it has returned; promotion, expunging and copying lose nothing |
| MapSafety.RangeReports | pkgs/xsync/map.go:459-490 | A concurrent Range reports for each key what the table gave at some time while the Range was in progress, and omits only keys that were then missing |
| MapSafety.RangeAlone | pkgs/xsync/map.go:459-490 | A Range during which the table does not change reports exactly the table |
| MapCost.CopyingIsPaid | pkgs/xsync/map.go:492-514 | Over every schedule, entries scanned by dirtyLocked plus what is owed (the copy under way or the next copy, and the misses) are at most the number of missLocked calls plus the sizes promoted by Range |
| MapCost.MissesStayBelow | pkgs/xsync/map.go:63-69 | `misses` is below the size of `dirty` whenever `dirty` exists, except for a lock holder about to file a key, and 0 otherwise |
| SyncMap.Map.constructor | pkgs/xsync/map.go:37-70 | The empty map |
| SyncMap.Map.Load | pkgs/xsync/map.go:122-146 | Returns what the plain map has under the key and changes nothing in it; a lookup that misses `read` uses up one of at most as many misses as `dirty` has entries, after which `amended` is false |
| SyncMap.Map.Swap | pkgs/xsync/map.go:339-379 | The plain map with the key set; the result is what was there |
| SyncMap.Map.LoadOrStore | pkgs/xsync/map.go:207-240 | Keeps and returns a present value, stores and returns the given one otherwise |
| SyncMap.Map.LoadAndDelete | pkgs/xsync/map.go:278-301 | The plain map without the key; the result is what was there |
| SyncMap.Map.DeleteDirty | pkgs/xsync/map.go:285-297 | The slow path: unlinking, counting the miss (perhaps promoting) and emptying the entry together delete the key and report its value |
| SyncMap.Map.CompareAndSwap | pkgs/xsync/map.go:384-409 | Replaces whatever value is present, and does what is documented if and only if the key is absent or its value equals the expected one |
| SyncMap.Map.CompareAndDelete | pkgs/xsync/map.go:416-446 | Deletes whatever value is present, and does what is documented if and only if the key is absent or its value equals the expected one |
| SyncMap.SwapsUnexpected | pkgs/xsync/map.go:168-187 | The documented comparison fails: after storing one value, CompareAndSwap with another expected value swaps |
| SyncMap.DeletesUnexpected | pkgs/xsync/map.go:436-444 | The documented comparison fails: after storing one value, CompareAndDelete with another expected value deletes |
| SyncMap.LoadUntilPromoted | pkgs/xsync/map.go:122-140 | Consecutive Loads that miss `read` end with `amended` false after at most as many as `dirty` has entries, with the plain map unchanged |
| SyncMap.Map.Range | pkgs/xsync/map.go:459-490 | The callback gets each key of the plain map at most once, with its value, and all of them unless it stops the iteration; the promotion does not change the plain map and leaves `amended` false |
| SyncMap.Map.MissLocked | pkgs/xsync/map.go:492-500 | Counts down to a promotion, which leaves the plain map unchanged |
| SyncMap.Map.Promote | pkgs/xsync/map.go:459-478 | Promotion moves `dirty` to `read` without changing the plain map |
| SyncMap.Map.DirtyLocked | pkgs/xsync/map.go:502-514 | Builds `dirty` so that every entry of `read` is shared or expunged, without changing any value; no effect when `dirty` exists |
| SyncMap.Map.ScanOne | pkgs/xsync/map.go:516-525 | One entry: expunged and left out when empty, shared otherwise, its value kept |
| SyncMap.Map.Unexpunge | pkgs/xsync/map.go:193-195 | An expunged entry becomes empty and is shared again; the plain map is unchanged |
| SyncMap.Map.Insert | pkgs/xsync/map.go:368-376 | A key that neither table has is filed in `dirty`, after building `dirty` when there is none |
| SyncMap.Map.Write | pkgs/xsync/map.go:168-202 | Storing in the entry that a lookup finds sets or removes exactly that key of the plain map |
| RingBuffer.RingBuffer.New | pkgs/ringbuffer/ringbuffer.go:43-48 | An empty buffer of the given positive size |
| RingBuffer.RingBuffer.SetErr | pkgs/ringbuffer/ringbuffer.go:85-106 | A final error stays and is the answer; nil and transient errors are answered and not stored; any other error is stored and answered. The register moves only from nil to EOF to another error |
| RingBuffer.RingBuffer.ReadErr | pkgs/ringbuffer/ringbuffer.go:108-123 | A final error is reported whatever is unread, nothing without an error, and EOF exactly when nothing is unread |
| RingBuffer.RingBuffer.CloseWithError | pkgs/ringbuffer/ringbuffer.go:532-543 | Stores EOF for nil and otherwise the error, unless a final error is stored or the new one is transient. A stored error stays, as documented, if and only if it is final or the new one is nil, EOF or transient |
| RingBuffer.EofIsOverwritten | pkgs/ringbuffer/ringbuffer.go:530-537 | The documented rule fails: closing with another error after closing with nil overwrites the stored EOF |
| RingStream.CloseKeepsExactly | pkgs/ringbuffer/ringbuffer.go:530-537 | In the protocol too, a close keeps a stored error if and only if that is final, or the close brings nil, EOF or a transient error |
| RingBuffer.RingBuffer.TakeBytes | pkgs/ringbuffer/ringbuffer.go:181-214 | Takes the oldest bytes, as many as fit, in one piece or two; the register is reported with them exactly when the write position was not beyond the read position |
| RingBuffer.RingBuffer.Read | pkgs/ringbuffer/ringbuffer.go:132-179 | Without a final error delivers exactly the oldest min(len(p), Length) bytes and leaves the rest of p and of the content alone; with one delivers nothing, reports exactly that error and keeps the content; EOF only on an empty buffer; an error comes with bytes exactly when they lay wrapped or full and the register then reports one |
| RingBuffer.RingBuffer.ReadByte | pkgs/ringbuffer/ringbuffer.go:217-242 | Delivers the oldest byte, with EOF when it was the last one and the register holds EOF; with a final error takes nothing and reports exactly that error |
| RingBuffer.RingBuffer.PutBytes | pkgs/ringbuffer/ringbuffer.go:311-353 | Appends as much of p as fits, and says full, too much, or nothing |
| RingBuffer.RingBuffer.Write | pkgs/ringbuffer/ringbuffer.go:250-309 | Without a stored error appends the longest prefix of p that fits, and reports an error exactly when that is not all; after EOF answers that the buffer is closed, after a final error that error, and appends nothing |
| RingBuffer.RingBuffer.WriteByte | pkgs/ringbuffer/ringbuffer.go:356-413 | Appends the byte exactly when it reports no error; after EOF answers that the buffer is closed, after a final error that error, and otherwise an error exactly when the buffer is full |
| RingBuffer.RingBuffer.Length | pkgs/ringbuffer/ringbuffer.go:416-432 | The number of unread bytes: accepted = delivered + Length |
| RingBuffer.RingBuffer.Free | pkgs/ringbuffer/ringbuffer.go:440-456 | Length + Free = size |
| RingBuffer.RingBuffer.IsFull | pkgs/ringbuffer/ringbuffer.go:512-517 | True exactly when Length is the size |
| RingBuffer.RingBuffer.IsEmpty | pkgs/ringbuffer/ringbuffer.go:520-525 | True exactly when there is nothing to read |
| RingBuffer.RingBuffer.Bytes | pkgs/ringbuffer/ringbuffer.go:470-509 | The unread bytes in order, in dst when they fit; the buffer is unchanged |
| RingBuffer.RingBuffer.Reset | pkgs/ringbuffer/ringbuffer.go:572-591 | Empties the buffer and clears the register |
| RingBuffer.BytesThenRead | pkgs/ringbuffer/ringbuffer.go:470-509 | Bytes returns exactly what one sufficiently large Read then delivers |
| RingBuffer.Drain | pkgs/ringbuffer/ringbuffer.go:139-156 | After EOF a loop of non-empty reads ends, having delivered exactly the remaining bytes; everything accepted is then delivered |
| RingLayout.UnreadAt | pkgs/ringbuffer/ringbuffer.go:181-214 | In every layout (empty, straight, wrapped, full) unread byte i lies i places after the read position |
| RingLayout.UnreadLength | pkgs/ringbuffer/ringbuffer.go:416-432 | How many unread bytes each layout holds |
| RingLayout.ReadDrops | pkgs/ringbuffer/ringbuffer.go:181-214 | Moving the read position forward by n drops exactly the n oldest bytes |
| RingLayout.WriteAppends | pkgs/ringbuffer/ringbuffer.go:311-353 | Writing p circularly into the free part and moving the write position appends exactly p, in every layout |
| RingSafety.NoLostWakeUp | pkgs/ringbuffer/ringbuffer.go:132-157 | In every run in which no ReadByte takes a byte past a sleeping writer, a reader sleeps only on an empty buffer without error, a writer only on a full one, and never both |
| RingSafety.NextSleepOk | pkgs/ringbuffer/ringbuffer.go:217-242 | From such a state, an action keeps this if and only if it is not a ReadByte (at once or resumed) that takes a byte while a writer sleeps |
| RingSafety.WithoutReadByte | pkgs/ringbuffer/ringbuffer.go:132-179 | Consumers that use only Read and TryRead never lose a wake-up |
| RingSafety.ReadByteLosesAWakeUp | pkgs/ringbuffer/ringbuffer.go:217-242 | A concrete run with ReadByte after which a writer and a reader sleep on an empty buffer, and go on sleeping whatever calls try to resume |
| RingSafety.AsleepForEver | pkgs/ringbuffer/ringbuffer.go:145-155 | When every waiting call is asleep, nothing but a new call changes anything |
| RingStream.StreamIsFifo | pkgs/ringbuffer/ringbuffer.go:250-284 | Over every run of blocking and non-blocking calls, the bytes delivered followed by the bytes held are the bytes accepted; what each call inserted is exactly the first `wrote` bytes of its argument, and `wrote` below the length comes with an error |
| RingWriters.SoleWriterIsContiguous | pkgs/ringbuffer/ringbuffer.go:262-283 | A call that writes while no other call waits to write and none is made puts a prefix of its argument into the stream, contiguously and across all its own waits, with reads, closes and resumptions in between; all of it unless it reports an error or still waits |
| RingWriters.RunContinues | pkgs/ringbuffer/ringbuffer.go:262-283 | From any state in which a call is the only one that waits to write, as long as no write is made the stream grows only by the next bytes of that call |
| RingWriters.MisreportsExactly | pkgs/ringbuffer/ringbuffer.go:279-283 | In every step, a write comes to report an error although all its bytes are in if and only if it is a woken Write or WriteByte that gets the lock with room for all it has left and a final error stored meanwhile |
| RingWriters.WriteByteMisreports | pkgs/ringbuffer/ringbuffer.go:365-373 | A concrete run in which WriteByte reports a final error for a byte that is in the buffer |
| RingStream.RegisterAdvances | pkgs/ringbuffer/ringbuffer.go:85-106 | In every step of the protocol the register moves only nil, EOF, other; only a close changes it |
| RingStream.FinalIsForEver | pkgs/ringbuffer/ringbuffer.go:85-106 | A stored error other than EOF never changes again |
| RingStream.EofMeansEmpty | pkgs/ringbuffer/ringbuffer.go:108-123 | No read of any kind, at once or after a wait, reports EOF while unread bytes remain |
| RingStream.ClosedStays | pkgs/ringbuffer/ringbuffer.go:541-543 | After a close with no writer waiting, nothing more is accepted |
| RingStream.ReadProgress | pkgs/ringbuffer/ringbuffer.go:132-157 | After EOF each non-empty read takes at least one byte or reports EOF on an empty buffer |
| RingStream.Drains | pkgs/ringbuffer/ringbuffer.go:139-156 | After EOF with no writer waiting, as many non-empty reads as there are bytes deliver exactly those bytes, whatever calls come between |
| RingRefinement.ReadStep | pkgs/ringbuffer/ringbuffer.go:132-214 | The array-backed Read takes the step of TryRead in the protocol, refused calls included, and that of a blocking Read, which waits exactly where the buffer is reported empty |
| RingRefinement.ReadRound | pkgs/ringbuffer/ringbuffer.go:146-152 | Each later round of a waiting Read, with whatever register it finds, is one Read of the object, and waits again exactly where the buffer is still empty without an error |
| RingRefinement.ReadByteStep | pkgs/ringbuffer/ringbuffer.go:217-242 | The array-backed ReadByte takes the step of the protocol, which waits exactly where the buffer is reported empty |
| RingRefinement.ReadByteRound | pkgs/ringbuffer/ringbuffer.go:223-241 | Each later round of a waiting ReadByte is one ReadByte of the object, and waits again exactly where the buffer is still empty without an error |
| RingRefinement.WriteStep | pkgs/ringbuffer/ringbuffer.go:250-353 | The array-backed Write takes the step of TryWrite in the protocol, refused and empty writes included, and the first stretch of a blocking Write, which waits exactly where not everything fits |
| RingRefinement.WriteRound | pkgs/ringbuffer/ringbuffer.go:263-283 | Each later round of a waiting Write, with whatever register it finds, is one private write of the rest of its argument |
| RingRefinement.WriteByteStep | pkgs/ringbuffer/ringbuffer.go:356-396 | The array-backed WriteByte takes the step of TryWriteByte, and the first stretch of a blocking WriteByte, which waits exactly where the buffer is full |
| RingRefinement.WriteByteRound | pkgs/ringbuffer/ringbuffer.go:366-373 | Each later round of a waiting WriteByte is one private writeByte |
| RingRefinement.CloseStep | pkgs/ringbuffer/ringbuffer.go:532-537 | Closing the object takes the step of the protocol |
| RingCalls.ReadsGet | pkgs/ringbuffer/ringbuffer.go:132-242 | In every state of the protocol each read, new or woken, blocking or not, gets the oldest bytes, as many as it asked for or there are; with a final error it gets that error and takes nothing; it waits exactly for a first byte |
| RingCalls.NewWritesPut | pkgs/ringbuffer/ringbuffer.go:250-396 | In every state each new write is refused with a stored error, and otherwise puts in as many bytes as fit; with some left it waits, or says that the buffer was full or got full |
| RingCalls.WokenWritesPut | pkgs/ringbuffer/ringbuffer.go:263-283 | In every state each woken write puts in as many of its remaining bytes as fit, and waits again exactly when some are left and no final error is stored |
| RingCalls.OthersStay | pkgs/ringbuffer/ringbuffer.go:145-152 | A call that has not been woken, or has its result, does not move |
| LinkedList.List.constructor | pkgs/list/list.go:46-51 | The zero value is an empty list ready to use |
| LinkedList.List.LazyInit | pkgs/list/list.go:85-89 | Closes the ring of a zero list and leaves any other alone |
| LinkedList.List.InsertAt | pkgs/list/list.go:92-100 | The element lands exactly after its predecessor; the ring stays closed both ways |
| LinkedList.List.RemoveAt | pkgs/list/list.go:108-115 | Exactly this element leaves; its links and its list become nil |
| LinkedList.List.MoveAt | pkgs/list/list.go:118-129 | Exactly this element moves, also next to itself or to a neighbour; all others keep their order |
| LinkedList.Splice | pkgs/list/list.go:92-100 | The four pointer writes put an element after any position of a ring, keeping next and prev mutually inverse |
| LinkedList.Unsplice | pkgs/list/list.go:108-115 | The two pointer writes take an element out of a ring, keeping next and prev mutually inverse |
| LinkedList.List.Front | pkgs/list/list.go:69-74 | The first element, or nil |
| LinkedList.List.Back | pkgs/list/list.go:77-82 | The last element, or nil |
| LinkedList.Element.Next | pkgs/list/list.go:31-36 | The next element of the list the element is in, or nil at its end |
| LinkedList.Element.Prev | pkgs/list/list.go:39-44 | The previous element of the list the element is in, or nil at its start |
| LinkedList.List.Remove | pkgs/list/list.go:134-141 | Removes an element of this list and returns its value; a foreign element changes nothing |
| LinkedList.List.PushFront | pkgs/list/list.go:144-147 | A new element in front of all others |
| LinkedList.List.PushBack | pkgs/list/list.go:150-153 | A new element behind all others |
| LinkedList.List.InsertBefore | pkgs/list/list.go:158-164 | A new element just before the mark; a foreign mark changes nothing and gives nil |
| LinkedList.List.InsertAfter | pkgs/list/list.go:169-175 | A new element just after the mark; a foreign mark changes nothing and gives nil |
| LinkedList.List.MoveToFront | pkgs/list/list.go:180-186 | The element comes first, the others keep their order; a foreign element changes nothing |
| LinkedList.List.MoveToBack | pkgs/list/list.go:191-197 | The element comes last, the others keep their order; a foreign element changes nothing |
| LinkedList.List.MoveBefore | pkgs/list/list.go:202-207 | The element lands just before the mark, the others keep their order; itself or a foreign one as mark changes nothing |
| LinkedList.List.MoveAfter | pkgs/list/list.go:212-217 | The element lands just after the mark, the others keep their order; itself or a foreign one as mark changes nothing |
| LinkedList.List.PushBackList | pkgs/list/list.go:221-226 | Terminates with own values followed by those of the other list, s + s when it is the same list; all old handles keep their places and a distinct other list is untouched |
| LinkedList.List.PushFrontList | pkgs/list/list.go:230-235 | Terminates with the values of the other list in order followed by own values, s + s when it is the same list; all old handles keep their order and a distinct other list is untouched |
| RouterSafety.SingleOwnership | core/engine/routine.go:35-46 | In every interleaving each payload is in at most one place, once; payloads in flight have different buffers, none of them in the pool or loose in a hand, also with inbound handlers draining a connection's channel |
| RouterSafety.PutBackOnce | core/engine/conn.go:122-125 | What a goroutine has in hand is not in the pools, so each get is put back at most once |
| RouterSafety.RoutedToItsPeer | core/engine/routine.go:77-122 | Whatever is written to a peer's stream is a packet that was read from the device with the configured address of that peer; only what came from the network is written to the device |
| RouterSafety.ChannelsHoldTheirPackets | core/engine/routine.go:101-116 | Every payload in a connection's channel has the configured address of the connection's peer |
| RouterSafety.OneConnectionPerPeer | core/engine/conn.go:17-42 | At most one outbound connection goroutine lives per peer, and at most one owns an address |
| RouterSafety.DeletesItsOwnEntries | core/engine/conn.go:32-36 | The deferred deletes of a finishing goroutine remove exactly its own entries, never a successor's |
| RouterSafety.RoutesLeadToConnections | core/engine/conn.go:17-31 | A route leads to the channel of a connection that has not made its deferred delete from that table |
| RouterSafety.RunKeeps | core/engine/engine.go:142-206 | Ownership, hands, tables and destinations are right after every run of the router |
| RouterMemory.NextMem | core/engine/routine.go:8-124 | Every step leaves each goroutine with in hand what its place in the code needs, nothing in two places, and no packet in flight changed |
| RouterTables.DialTables | core/engine/conn.go:26-31 | When the router dials, a new channel is made if and only if no goroutine lives for the peer and none owns the address; the tables stay right |
| RouterTables.DeleteAddrTables | core/engine/conn.go:34-34 | The address entry is the goroutine's own when it deletes it |
| RouterTables.DeleteIdTables | core/engine/conn.go:33-33 | The peer entry is the goroutine's own when it deletes it |
| PacketMem.PostOwns | core/engine/routine.go:115-116 | Sending to a channel moves the payload with its buffer and touches nothing else |
| PacketMem.PullOwns | core/engine/conn.go:122-122 | Receiving moves the first payload with its buffer and touches nothing else |
| PacketMem.WrapBufferOwns | core/engine/routine.go:35-39 | The payload got from the pool is nowhere else and has the filled buffer to itself |
| PacketMem.AttachBufferOwns | core/engine/conn.go:112-115 | The buffer got from the pool belongs to no other payload and holds the message |
| PacketMem.StripOwns | core/engine/conn.go:124-124 | The buffer put back is no other payload's |
| PacketMem.PutPayloadOwns | core/engine/conn.go:125-125 | The payload put back is nowhere else |
| RouterOrder.StreamsAreInOrder | core/engine/conn.go:120-131 | In every run each goroutine writes its stream in the order in which the packets were read |
| RouterOrder.NeverWrittenTwice | core/engine/engine.go:241-252 | In every run no packet is written twice, by any goroutines to any peers, also with handlers draining the same channels |
| RouterPeers.PeersGetPacketsInOrder | core/engine/conn.go:26-37 | As long as no handler comes for this peer, what it gets over all its connections, however often they die and are made again, is a subsequence of the packets read for its address, in order; handlers of other peers do not matter |
| RouterPeers.OrderKeptWithoutRaces | core/engine/engine.go:241-252 | With any number of connections and handlers, a run that has met no state in which packets for the peer race has kept their order. Two packets race when two goroutines are about to write one each, or they wait in, or just out of, different channels of the peer that can still be drained |
| RouterPeers.ConnectionsDoNotRace | core/engine/conn.go:26-37 | Connections of a peer, old and new, never race with each other |
| RouterRaces.RacesLoseTheOrder | core/engine/engine.go:241-252 | From every reachable state in which packets for the peer race, at most eight more steps write to the peer out of order |
| RouterRaces.OrderIsSafeExactlyWithoutRaces | core/engine/engine.go:226-252 | All runs keep the order of the packets for the peer if and only if no run meets a race |
| RouterOrder.OrderKept | core/engine/routine.go:77-122 | Every step keeps the order of all packets in flight between device, channels and streams |
| RouterHandlers.HandlersLoseTheOrder | core/engine/engine.go:241-252 | A concrete run with an inbound handler draining a connection's channel, in which the peer gets the second packet before the first |
| RouterInbound.DeviceGetsStreamsInOrder | core/engine/conn.go:104-118 | Each message from the network reaches the device at most once, and those of one stream in the order in which they came |
| RouterInbound.DeviceGetsEverything | core/engine/routine.go:56-60 | In every run the device has been given exactly the messages taken from devWriter, in order, but for one just being written, and what receivers have put into devWriter is what was taken and what still waits |
| RouterProgress.WriterWrites | core/engine/routine.go:56-60 | From every reachable state in which the device writer waits and devWriter is not empty, its four steps write the first message to the device and put the payload and its buffer back |
| RouterProgress.ReaderReads | core/engine/routine.go:14-39 | Reading a packet that is kept ends with a payload that has its destination and its bytes |
| RouterProgress.ReaderDropsExactly | core/engine/routine.go:17-33 | A packet is dropped if and only if it does not parse or is a broadcast that is not enabled |
| RouterProgress.ReaderReturnsBuffer | core/engine/routine.go:17-20 | After a failed read the buffer is back in the pool |
| RouterProgress.ReaderOffers | core/engine/routine.go:40-46 | The payload goes to the end of devReader, or when that is full is put back with its buffer |
| RouterProgress.RouteAbandonsExactly | core/engine/routine.go:77-102 | The router drops a packet at once if and only if it is a broadcast and broadcasts are enabled, and searches if and only if it is not dropped and its address is unknown |
| RouterProgress.KnownAddressIsUsed | core/engine/routine.go:101-116 | A packet for a known address goes to the connection that owns the address |
| RouterProgress.SearchAbandonsExactly | core/engine/conn.go:17-45 | The search drops a packet if and only if no configured peer has its address, however many connections there have been |
| RouterProgress.KnownPeerIsUsed | core/engine/conn.go:26-27 | A packet for a peer that has a channel goes to that channel |
| RouterProgress.NewConnectionIsMade | core/engine/conn.go:26-38 | From every reachable state, a packet for a configured peer that neither table has leads to one new channel for that peer, registered under both tables, and to its started connection |
| RouterProgress.RouterForwards | core/engine/routine.go:115-121 | The packet goes to the end of its channel, or when that is full is put back with its buffer |
| RouterProgress.NewPeerIsServed | core/engine/conn.go:26-42 | Five steps of the router and three of the new connection write such a packet to its peer |
| RouterProgress.SuccessorServes | core/engine/conn.go:26-42 | From every reachable state in which a connection has something to write and fails, and the next packet is for the same peer, a successor is made and writes it |
| RouterProgress.ConnectionBegins | core/engine/conn.go:80-118 | A connection runs if and only if its search has succeeded, then with a receiver of its own; a failed search goes to the deferred deletes |
| RouterProgress.ConnectionWrites | core/engine/conn.go:120-131 | A connection takes the first packet of its channel, tries to write it and puts payload and buffer back; it goes on if and only if the write succeeds, and nothing else changes |
| RouterProgress.ConnectionEnds | core/engine/conn.go:123-129 | A running connection ends if and only if it has put back a payload whose write failed |
| RouterProgress.ConnectionDies | core/engine/conn.go:32-36 | Then its two deferred deletes take its entries out of the tables, and it is dead |
| RouterProgress.HandlerWrites | core/engine/engine.go:241-252 | An inbound handler takes the first packet of its channel, tries to write it, puts everything back and goes on, also after a failed write |
| RouterProgress.InboundIsServed | core/engine/engine.go:211-245 | An inbound stream is served if and only if its peer is configured and has a channel, by a handler on that channel and a receiver |
| RouterProgress.ReceiverReceives | core/engine/conn.go:104-118 | A message that is read goes to the end of devWriter, in a payload of its own |
| RouterProgress.ReceiverWaitsOrStops | core/engine/conn.go:105-117 | A receiver with a message waits if and only if devWriter is full, and stops if and only if a read fails |
| RouterReconnect.SuccessorWrites | core/engine/conn.go:26-37 | A concrete run in which a connection dies and its successor writes the next packet to the same peer |

## Left out

- MapTheorems.Linearizable: Range is not an operation of the log, since it is not a snapshot (RangeReports says what it may report); its callback does not stop the iteration (it can in the sequential Range); termination of the compare-and-swap loops is stated for a call that takes its steps alone (CallReturnsAlone), not under contention.
- MapCost.CopyingIsPaid: counts the entries that dirtyLocked finishes with, not the retries of tryExpungeLocked on one entry.
- SyncMap.Map.Swap: one goroutine uses the object, so the retry loops of the entry methods are modelled by their single successful round; MapMachine has the loops.
- Memory model of Go: `MapMachine` takes atomic operations as sequentially consistent.
- `Store` and `Delete` of the map, which call Swap and LoadAndDelete and drop the result.
- RingBuffer.RingBuffer.New: size 0 is not modelled; a write would mark such a buffer full and the next read take a position modulo 0.
- RingBuffer.RingBuffer.Read: does not model `p` sharing memory with the buffer, nor a TryRead that does not get the lock; the same for TryWrite and TryWriteByte.
- RingBuffer.RingBuffer.Bytes: does not model a `dst` that shares memory with the buffer, as the slice given to NewBuffer would.
- SyncMap.Map.Range: the callback is reduced to how many calls it accepts; one that uses the map itself is covered only as other calls interleaved with the Range in MapMachine.
- RingBuffer.RingBuffer.Reset: models the state it leaves, not the error it sets meanwhile, the broadcasts, or the wait for readers.
- `Flush` and `WriteCloser.Close` of the ring buffer: the emptiness check is not atomic with the wait.
- `WithCancel` and `WriteString` of the ring buffer: a goroutine on a context, and an unsafe conversion in front of Write.
- RingRefinement.WriteRound: relates the object to the protocol round by round; whole calls across their waits are stated on the protocol only, and broadcasts exist only there.
- LinkedList.List.Remove: assumes that an element whose `list` is this list is in it, which every operation keeps; `Init` on a non-empty list, which breaks it, is left out.
- `Len` of the list, a field access.
- Router: the goroutines are steps of a machine on values and not methods with loops, because the properties are about their interleaving; each step is one channel, pool, table, network or device operation.
- RouterSafety.SingleOwnership: payloads that the router forgets on its drop paths are nowhere, and not recovered; a pool may also drop an item, which is not modelled.
- RouterSafety.RoutedToItsPeer: addresses are compared whole; parsing of packets is a choice of the schedule.
- `addConnByID`, which nothing calls and which would be a second writer of the route table.
- Buffers: their lengths, and the shortening of a buffer to the packet read, are not modelled.
- The libp2p host, DHT, mDNS, relay and peer search, TUN devices, routes, configuration, logging and command execution: they depend on the network and the system.
- `core/stack/hash.go` and `core/protocol/ip.go`: straight-line arithmetic and fixed offsets, which would only add easy members.
