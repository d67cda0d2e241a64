/** The blocking mode of the ring buffer as a protocol: any number of calls, each holding the lock from one
    Cond.Wait to the next, so that one action is one such stretch.  The buffer itself is the FIFO that the
    RingBuffer object refines; where its result depends on the layout of the array, the action says which. */
module RingBlocking {
  import opened Basics
  import opened RingSpec

  type CallId = nat

  /** A call that waits on a condition variable (`woken` once a broadcast has reached it), or its result. */
  datatype Call =
    | Reading(len: nat, woken: bool)
    | ByteReading(woken: bool)
    | Writing(p: seq<Byte>, wrote: nat, woken: bool)
    | ByteWriting(c: Byte, woken: bool)
    | ReadDone(got: seq<Byte>, e: Outcome)
    | WriteDone(p: seq<Byte>, wrote: nat, e: Outcome)

  datatype Ring = Ring(
    size: nat,
    content: seq<Byte>,
    err: Outcome,
    calls: seq<Call>,
    log: seq<(CallId, Byte)>,   // every byte accepted, with the call that wrote it
    delivered: seq<Byte>)       // every byte handed to a reader

  /** `wrapped` says whether the unread bytes lie wrapped round the end of the array: only then does the
      private read look at the error register after taking the bytes. */
  datatype Action =
    | Read(len: nat, wrapped: bool) | TryRead(len: nat, wrapped: bool) | ReadByte
    | Write(p: seq<Byte>) | TryWrite(p: seq<Byte>) | WriteByte(c: Byte) | TryWriteByte(c: Byte)
    | CloseWithError(e: Outcome)
    | Resume(id: CallId, wrapped: bool)   // a woken call gets the lock

  function New(size: nat): Ring {
    Ring(size, [], None, [], [], [])
  }

  // ----- broadcasts

  function WakeReader(c: Call): Call {
    match c
    case Reading(len, _) => Reading(len, true)
    case ByteReading(_) => ByteReading(true)
    case _ => c
  }

  function WakeWriter(c: Call): Call {
    match c
    case Writing(p, wrote, _) => Writing(p, wrote, true)
    case ByteWriting(c, _) => ByteWriting(c, true)
    case _ => c
  }

  /** writeCond.Broadcast(): readers wait on it. */
  function WakeReaders(s: Ring): Ring {
    s.(calls := seq(|s.calls|, i requires 0 <= i < |s.calls| => WakeReader(s.calls[i])))
  }

  /** readCond.Broadcast(): writers wait on it. */
  function WakeWriters(s: Ring): Ring {
    s.(calls := seq(|s.calls|, i requires 0 <= i < |s.calls| => WakeWriter(s.calls[i])))
  }

  function Put(s: Ring, id: CallId, c: Call): Ring
    requires id < |s.calls|
  {
    s.(calls := s.calls[id := c])
  }

  // ----- the FIFO

  function Tag(id: CallId, p: seq<Byte>): seq<(CallId, Byte)> {
    seq(|p|, i requires 0 <= i < |p| => (id, p[i]))
  }

  function Accept(s: Ring, id: CallId, p: seq<Byte>): Ring {
    s.(content := s.content + p, log := s.log + Tag(id, p))
  }

  function Deliver(s: Ring, n: nat): Ring
    requires n <= |s.content|
  {
    s.(content := s.content[n..], delivered := s.delivered + s.content[..n])
  }

  function Room(s: Ring): nat {
    if |s.content| < s.size then s.size - |s.content| else 0
  }

  // ----- one stretch of each call, from getting the lock to releasing it

  function DoRead(s: Ring, id: CallId, len: nat, wrapped: bool, block: bool): Ring
    requires id < |s.calls|
  {
    var refused := ReadErr(s.err, s.content == []);
    if len == 0 || refused.Some? then Put(s, id, ReadDone([], refused))
    else if s.content == [] then
      Put(s, id, if block then Reading(len, false) else ReadDone([], Some(ErrIsEmpty)))
    else
      var n := Min(len, |s.content|);
      var t := WakeWriters(Deliver(s, n));
      Put(t, id, ReadDone(s.content[..n], if wrapped then ReadErr(s.err, t.content == []) else None))
  }

  /** ReadByte frees space without telling the writers. */
  function DoReadByte(s: Ring, id: CallId): Ring
    requires id < |s.calls|
  {
    var refused := ReadErr(s.err, s.content == []);
    if refused.Some? then Put(s, id, ReadDone([], refused))
    else if s.content == [] then Put(s, id, ByteReading(false))
    else
      var t := Deliver(s, 1);
      Put(t, id, ReadDone(s.content[..1], ReadErr(s.err, t.content == [])))
  }

  /** One round of the loop of Write, with `wrote` bytes of `p` already in. */
  function DoWrite(s: Ring, id: CallId, p: seq<Byte>, wrote: nat): Ring
    requires id < |s.calls| && wrote < |p|
  {
    var n := Min(|p| - wrote, Room(s));
    var t := Accept(s, id, p[wrote..wrote + n]);
    if wrote + n == |p| then Put(WakeReaders(t), id, WriteDone(p, wrote + n, if Final(s.err) then s.err else None))
    else if Final(s.err) then
      Put(if wrote + n > 0 then WakeReaders(t) else t, id, WriteDone(p, wrote + n, s.err))
    else Put(WakeReaders(t), id, Writing(p, wrote + n, false))
  }

  function DoTryWrite(s: Ring, id: CallId, p: seq<Byte>): Ring
    requires id < |s.calls|
  {
    var n := Min(|p|, Room(s));
    var t := Accept(s, id, p[..n]);
    var e := if n == |p| then None else if s.size <= |s.content| then Some(ErrIsFull) else Some(ErrTooMuchDataToWrite);
    Put(if n > 0 then WakeReaders(t) else t, id, WriteDone(p, n, e))
  }

  /** The loop of WriteByte; after a wait its result passes through the error register. */
  function DoWriteByte(s: Ring, id: CallId, c: Byte, block: bool): Ring
    requires id < |s.calls|
  {
    if Room(s) == 0 then
      Put(s, id, if Final(s.err) then WriteDone([c], 0, s.err)
                 else if block then ByteWriting(c, false) else WriteDone([c], 0, Some(ErrIsFull)))
    else
      var t := Accept(s, id, [c]);
      if Final(s.err) then Put(t, id, WriteDone([c], 1, s.err))
      else Put(WakeReaders(t), id, WriteDone([c], 1, None))
  }

  function DoClose(s: Ring, e: Outcome): Ring {
    var (reg, stored, _) := SetErr(s.err, if e.None? then Some(EOF) else e);
    if stored then WakeReaders(WakeWriters(s.(err := reg))) else s
  }

  function DoResume(s: Ring, id: CallId, wrapped: bool): Ring
    requires id < |s.calls|
  {
    match s.calls[id]
    case Reading(len, true) => DoRead(s, id, len, wrapped, true)
    case ByteReading(true) => DoReadByte(s, id)
    case Writing(p, wrote, true) => if wrote < |p| then DoWrite(s, id, p, wrote) else s
    case ByteWriting(c, true) => DoWriteByte(s, id, c, true)
    case _ => s
  }

  /** A new call; the record it starts with is replaced in the same stretch. */
  function Begin(s: Ring, c: Call): Ring {
    s.(calls := s.calls + [c])
  }

  function Argument(a: Action): seq<Byte>
    requires a.Write? || a.TryWrite? || a.WriteByte? || a.TryWriteByte?
  {
    if a.Write? || a.TryWrite? then a.p else [a.c]
  }

  /** A new write, refused at once when the register says so. */
  function StartWrite(s: Ring, a: Action): Ring
    requires a.Write? || a.TryWrite? || a.WriteByte? || a.TryWriteByte?
  {
    var id, p, t := |s.calls|, Argument(a), Begin(s, WriteDone([], 0, None));
    if p == [] then Begin(s, WriteDone([], 0, if Final(s.err) then s.err else None))
    else if WriteRefused(s.err).Some? then Begin(s, WriteDone(p, 0, WriteRefused(s.err)))
    else
      match a
      case Write(_) => DoWrite(t, id, p, 0)
      case TryWrite(_) => DoTryWrite(t, id, p)
      case WriteByte(c) => DoWriteByte(t, id, c, true)
      case TryWriteByte(c) => DoWriteByte(t, id, c, false)
  }

  function StartRead(s: Ring): Ring {
    Begin(s, ReadDone([], None))
  }

  function Next(s: Ring, a: Action): Ring {
    match a
    case Read(len, wrapped) => DoRead(StartRead(s), |s.calls|, len, wrapped, true)
    case TryRead(len, wrapped) => DoRead(StartRead(s), |s.calls|, len, wrapped, false)
    case ReadByte => DoReadByte(StartRead(s), |s.calls|)
    case CloseWithError(e) => DoClose(s, e)
    case Resume(id, wrapped) => if id < |s.calls| then DoResume(s, id, wrapped) else s
    case _ => StartWrite(s, a)
  }

  function RunFrom(s: Ring, acts: seq<Action>): Ring {
    if acts == [] then s else Next(RunFrom(s, acts[..|acts| - 1]), acts[|acts| - 1])
  }

  function Run(size: nat, acts: seq<Action>): Ring {
    RunFrom(New(size), acts)
  }

  lemma {:induction false} RunMore(s: Ring, acts: seq<Action>, a: Action)
    ensures RunFrom(s, acts + [a]) == Next(RunFrom(s, acts), a)
  {
    assert (acts + [a])[..|acts + [a]| - 1] == acts;
  }

  lemma {:induction false} RunIsFold(s: Ring, acts: seq<Action>)
    ensures RunFrom(s, acts) == Fold(Next, s, acts)
  {
    if acts != [] { RunIsFold(s, acts[..|acts| - 1]); }
  }

  lemma {:induction false} RunJoins(s: Ring, acts: seq<Action>, more: seq<Action>)
    ensures RunFrom(s, acts + more) == RunFrom(RunFrom(s, acts), more)
  {
    RunIsFold(s, acts);
    RunIsFold(s, acts + more);
    RunIsFold(RunFrom(s, acts), more);
    FoldJoins(Next, s, acts, more);
  }
}
