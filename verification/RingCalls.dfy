/** What a call of the blocking ring buffer gets, in every state, at once or when it is woken: said outright, in terms
    of the bytes held, the room left and the error register. */
module RingCalls {
  import opened Basics
  import opened RingSpec
  import opened RingBlocking

  /** From `s` to `t` a reader of at most `len` bytes has come to record `c`. */
  ghost predicate Gets(s: Ring, t: Ring, c: Call, len: nat, wrapped: bool, block: bool) {
    if Final(s.err) then c == ReadDone([], s.err) && Untouched(s, t)
    else if s.content == [] && s.err == Some(EOF) then c == ReadDone([], Some(EOF)) && Untouched(s, t)
    else if len == 0 then c == ReadDone([], None) && Untouched(s, t)
    else if s.content == [] then
      Untouched(s, t) && c == if block then Reading(len, false) else ReadDone([], Some(ErrIsEmpty))
    else
      var n := Min(len, |s.content|);
      && Takes(s, t, n)
      && c == ReadDone(s.content[..n], if wrapped && t.content == [] && s.err == Some(EOF) then Some(EOF) else None)
  }

  ghost predicate Untouched(s: Ring, t: Ring) {
    t.content == s.content && t.err == s.err && t.log == s.log && t.delivered == s.delivered
  }

  /** The `n` oldest bytes are delivered. */
  ghost predicate Takes(s: Ring, t: Ring, n: nat) {
    && n <= |s.content| && t.content == s.content[n..] && t.delivered == s.delivered + s.content[..n]
    && t.err == s.err && t.log == s.log
  }

  ghost predicate GetsOne(s: Ring, t: Ring, c: Call) {
    if Final(s.err) then c == ReadDone([], s.err) && Untouched(s, t)
    else if s.content == [] then
      Untouched(s, t) && c == if s.err == Some(EOF) then ReadDone([], Some(EOF)) else ByteReading(false)
    else
      && Takes(s, t, 1)
      && c == ReadDone(s.content[..1], if t.content == [] && s.err == Some(EOF) then Some(EOF) else None)
  }

  /** Every read, new or woken, gets the oldest bytes, as many as it asked for or there are; with a final error stored
      it gets that error and nothing is taken; it waits exactly for the first byte. */
  lemma {:induction false} ReadsGet(s: Ring, a: Action)
    ensures match a
            case Read(len, wrapped) => Gets(s, Next(s, a), Next(s, a).calls[|s.calls|], len, wrapped, true)
            case TryRead(len, wrapped) => Gets(s, Next(s, a), Next(s, a).calls[|s.calls|], len, wrapped, false)
            case ReadByte => GetsOne(s, Next(s, a), Next(s, a).calls[|s.calls|])
            case Resume(id, wrapped) =>
              id < |s.calls| ==>
                (match s.calls[id]
                 case Reading(len, true) => Gets(s, Next(s, a), Next(s, a).calls[id], len, wrapped, true)
                 case ByteReading(true) => GetsOne(s, Next(s, a), Next(s, a).calls[id])
                 case _ => true)
            case _ => true
  {
  }

  /** From `s` to `t` a writer with the first `wrote` bytes of `p` in has put in as many more as fit, `n`. */
  ghost predicate Puts(s: Ring, t: Ring, id: CallId, p: seq<Byte>, wrote: nat, n: nat) {
    && wrote + n <= |p| && n == Min(|p| - wrote, if |s.content| < s.size then s.size - |s.content| else 0)
    && t.content == s.content + p[wrote..wrote + n] && t.log == s.log + Tag(id, p[wrote..wrote + n])
    && t.err == s.err && t.delivered == s.delivered
  }

  /** How a writer of `p` waits with `wrote` bytes in. */
  function Waits(p: seq<Byte>, wrote: nat, byte: bool): Call {
    if byte && |p| == 1 then ByteWriting(p[0], false) else Writing(p, wrote, false)
  }

  /** A new write is refused with a stored error; otherwise it puts in what fits, and when something is left it waits,
      or says that the buffer was full or got full. */
  ghost predicate Starts(s: Ring, t: Ring, id: CallId, c: Call, p: seq<Byte>, block: bool, byte: bool) {
    if p == [] then c == WriteDone([], 0, if Final(s.err) then s.err else None) && Untouched(s, t)
    else if s.err == Some(EOF) then c == WriteDone(p, 0, Some(ErrWriteOnClosed)) && Untouched(s, t)
    else if s.err.Some? then c == WriteDone(p, 0, s.err) && Untouched(s, t)
    else
      exists n :: && Puts(s, t, id, p, 0, n)
                  && c == (if n == |p| then WriteDone(p, n, None)
                           else if block then Waits(p, n, byte)
                           else WriteDone(p, n, if s.size <= |s.content| then Some(ErrIsFull)
                                                else Some(ErrTooMuchDataToWrite)))
  }

  /** A woken write puts in what fits, and waits again exactly when something is left and no final error is stored. */
  ghost predicate GoesOn(s: Ring, t: Ring, id: CallId, c: Call, p: seq<Byte>, wrote: nat, byte: bool) {
    exists n :: && Puts(s, t, id, p, wrote, n)
                && c == (if wrote + n == |p| || Final(s.err)
                         then WriteDone(p, wrote + n, if Final(s.err) then s.err else None)
                         else Waits(p, wrote + n, byte))
  }

  lemma {:induction false} NewWritesPut(s: Ring, a: Action)
    requires a.Write? || a.TryWrite? || a.WriteByte? || a.TryWriteByte?
    ensures |Next(s, a).calls| == |s.calls| + 1
    ensures Starts(s, Next(s, a), |s.calls|, Next(s, a).calls[|s.calls|], Argument(a), a.Write? || a.WriteByte?,
                   a.WriteByte? || a.TryWriteByte?)
  {
    var p, t := Argument(a), Next(s, a);
    if p != [] && s.err.None? {
      var n := Min(|p|, Room(s));
      assert Puts(s, t, |s.calls|, p, 0, n);
    }
  }

  lemma {:induction false} WokenWritePuts(s: Ring, id: CallId, p: seq<Byte>, wrote: nat)
    requires id < |s.calls| && wrote < |p|
    ensures var t := DoWrite(s, id, p, wrote); |t.calls| == |s.calls| && GoesOn(s, t, id, t.calls[id], p, wrote, false)
  {
    assert Puts(s, DoWrite(s, id, p, wrote), id, p, wrote, Min(|p| - wrote, Room(s)));
  }

  lemma {:induction false} WokenBytePuts(s: Ring, id: CallId, b: Byte)
    requires id < |s.calls|
    ensures var t := DoWriteByte(s, id, b, true); |t.calls| == |s.calls| && GoesOn(s, t, id, t.calls[id], [b], 0, true)
  {
    assert Puts(s, DoWriteByte(s, id, b, true), id, [b], 0, Min(1, Room(s)));
  }

  lemma {:induction false} WokenWritesPut(s: Ring, id: CallId, wrapped: bool)
    requires id < |s.calls|
    ensures |Next(s, Resume(id, wrapped)).calls| == |s.calls|
    ensures var t := Next(s, Resume(id, wrapped));
            match s.calls[id]
            case Writing(p, wrote, true) => wrote < |p| ==> GoesOn(s, t, id, t.calls[id], p, wrote, false)
            case ByteWriting(b, true) => GoesOn(s, t, id, t.calls[id], [b], 0, true)
            case _ => true
  {
    match s.calls[id]
    case Writing(p, wrote, true) => if wrote < |p| { WokenWritePuts(s, id, p, wrote); }
    case ByteWriting(b, true) => WokenBytePuts(s, id, b);
    case _ =>
  }

  /** A call that is not woken, or has its result, does not move. */
  lemma {:induction false} OthersStay(s: Ring, id: CallId, wrapped: bool)
    requires id < |s.calls|
    ensures s.calls[id].ReadDone? || s.calls[id].WriteDone? || !s.calls[id].woken ==> Next(s, Resume(id, wrapped)) == s
  {
  }
}
