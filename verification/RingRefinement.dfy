/** The ring buffer object takes exactly the steps of the blocking protocol: whole calls, refused ones included, the
    first stretch of a call that goes on to wait, and each later round of a waiting writer. */
module RingRefinement {
  import opened Basics
  import opened RingSpec
  import RingBlocking
  import RingBuffer

  /** The protocol state of a buffer with these calls. */
  ghost function View(rb: RingBuffer.RingBuffer, calls: seq<RingBlocking.Call>): RingBlocking.Ring
    reads rb, rb.buf
    requires rb.Valid()
  {
    RingBlocking.Ring(rb.size, rb.Contents(), rb.err, calls, [], [])
  }

  /** Do the buffer's contents, its register and a call's record agree with protocol state `t`? */
  ghost predicate Matches(rb: RingBuffer.RingBuffer, t: RingBlocking.Ring, c: RingBlocking.Call)
    reads rb, rb.buf
    requires rb.Valid()
  {
    t.content == rb.Contents() && t.err == rb.err && t.calls == [c]
  }

  /** What a read of the object may do with content `c`, leaving `left`: the protocol's stretch of a read, from a state
      with no other calls. */
  lemma {:induction false} ReadMatches(s: RingBlocking.Ring, len: nat, wrapped: bool, block: bool, got: seq<Byte>,
                                       left: seq<Byte>, e: Outcome)
    requires |s.calls| == 1
    requires s.content == got + left && |got| <= len
    requires if Final(s.err) then got == [] && e == s.err
             else if s.content == [] && s.err == Some(EOF) then e == Some(EOF)
             else if len == 0 then e == None
             else |got| == Min(len, |s.content|)
                  && e == if got == [] then Some(ErrIsEmpty)
                          else if wrapped && left == [] && s.err == Some(EOF) then Some(EOF) else None
    ensures var t := RingBlocking.DoRead(s, 0, len, wrapped, block);
            && t.content == left && t.err == s.err
            && t.calls == [if block && e == Some(ErrIsEmpty) && !Final(s.err) then RingBlocking.Reading(len, false)
                           else RingBlocking.ReadDone(got, e)]
  {
    assert s.content[..|got|] == got && s.content[|got|..] == left;
  }

  /** TryRead, and Read when it need not wait. */
  method ReadStep(rb: RingBuffer.RingBuffer, p: array<Byte>) returns (n: nat, e: Outcome, ghost wrapped: bool)
    requires rb.Valid() && p != rb.buf
    modifies rb`r, rb`isFull, rb`delivered, p
    ensures rb.Valid() && n <= p.Length && wrapped == (old(rb.w) <= old(rb.r))
    ensures Matches(rb, RingBlocking.Next(old(View(rb, [])), RingBlocking.TryRead(p.Length, wrapped)),
                    RingBlocking.ReadDone(p[..n], e))
    ensures Matches(rb, RingBlocking.Next(old(View(rb, [])), RingBlocking.Read(p.Length, wrapped)),
                    if e == Some(ErrIsEmpty) then RingBlocking.Reading(p.Length, false)
                    else RingBlocking.ReadDone(p[..n], e))
  {
    ghost var s := RingBlocking.StartRead(View(rb, []));
    wrapped := rb.w <= rb.r;
    n, e := ReadOnce(rb, p);
    ReadMatches(s, p.Length, wrapped, false, p[..n], rb.Contents(), e);
    ReadMatches(s, p.Length, wrapped, true, p[..n], rb.Contents(), e);
  }

  /** Read, with its outcome in the form that ReadMatches asks for. */
  method ReadOnce(rb: RingBuffer.RingBuffer, p: array<Byte>) returns (n: nat, e: Outcome)
    requires rb.Valid() && p != rb.buf
    modifies rb`r, rb`isFull, rb`delivered, p
    ensures rb.Valid() && n <= p.Length && old(rb.Contents()) == p[..n] + rb.Contents()
    ensures if Final(rb.err) then n == 0 && e == rb.err
            else if old(rb.Contents()) == [] && rb.err == Some(EOF) then e == Some(EOF)
            else if p.Length == 0 then e == None
            else n == Min(p.Length, |old(rb.Contents())|)
                 && e == if n == 0 then Some(ErrIsEmpty)
                         else if old(rb.w) <= old(rb.r) && rb.Contents() == [] && rb.err == Some(EOF) then Some(EOF)
                         else None
  {
    ghost var c := rb.Contents();
    n, e := rb.Read(p);
    assert c == c[..n] + c[n..];
  }

  /** A later round of Read, with whatever register it finds. */
  method ReadRound(rb: RingBuffer.RingBuffer, p: array<Byte>) returns (n: nat, e: Outcome, ghost wrapped: bool)
    requires rb.Valid() && p != rb.buf
    modifies rb`r, rb`isFull, rb`delivered, p
    ensures rb.Valid() && n <= p.Length && wrapped == (old(rb.w) <= old(rb.r))
    ensures Matches(rb, RingBlocking.DoResume(old(View(rb, [RingBlocking.Reading(p.Length, true)])), 0, wrapped),
                    if e == Some(ErrIsEmpty) then RingBlocking.Reading(p.Length, false)
                    else RingBlocking.ReadDone(p[..n], e))
    ensures e == Some(ErrIsEmpty) <==> old(rb.Contents()) == [] && rb.err.None? && p.Length > 0
  {
    ghost var s := View(rb, [RingBlocking.Reading(p.Length, true)]);
    wrapped := rb.w <= rb.r;
    n, e := ReadOnce(rb, p);
    ReadMatches(s, p.Length, wrapped, true, p[..n], rb.Contents(), e);
  }

  /** A later round of ReadByte. */
  method ReadByteRound(rb: RingBuffer.RingBuffer) returns (b: Byte, e: Outcome)
    requires rb.Valid()
    modifies rb`r, rb`isFull, rb`delivered
    ensures rb.Valid()
    ensures Matches(rb, RingBlocking.DoResume(old(View(rb, [RingBlocking.ByteReading(true)])), 0, false),
                    if e == Some(ErrIsEmpty) then RingBlocking.ByteReading(false)
                    else RingBlocking.ReadDone(if old(rb.Contents()) != [] && !Final(rb.err) then [b] else [], e))
    ensures e == Some(ErrIsEmpty) <==> old(rb.Contents()) == [] && rb.err.None?
  {
    ghost var c := rb.Contents();
    b, e := rb.ReadByte();
    assert c != [] ==> c[..1] == [c[0]];
  }

  method ReadByteStep(rb: RingBuffer.RingBuffer) returns (b: Byte, e: Outcome)
    requires rb.Valid()
    modifies rb`r, rb`isFull, rb`delivered
    ensures rb.Valid()
    ensures var taken := old(rb.Contents()) != [] && ReadErr(rb.err, false).None?;
            Matches(rb, RingBlocking.Next(old(View(rb, [])), RingBlocking.ReadByte),
                    if e == Some(ErrIsEmpty) then RingBlocking.ByteReading(false)
                    else RingBlocking.ReadDone(if taken then [b] else [], e))
  {
    ghost var c := rb.Contents();
    b, e := rb.ReadByte();
    assert c != [] ==> c[..1] == [c[0]];
  }

  /** TryWrite, and the first stretch of Write: it waits where TryWrite reports that not everything fits. */
  method WriteStep(rb: RingBuffer.RingBuffer, p: seq<Byte>) returns (n: nat, e: Outcome)
    requires rb.Valid()
    modifies rb`w, rb`isFull, rb`accepted, rb.buf
    ensures rb.Valid()
    ensures Matches(rb, RingBlocking.Next(old(View(rb, [])), RingBlocking.TryWrite(p)),
                    RingBlocking.WriteDone(p, n, e))
    ensures Matches(rb, RingBlocking.Next(old(View(rb, [])), RingBlocking.Write(p)),
                    if e in {Some(ErrIsFull), Some(ErrTooMuchDataToWrite)} then RingBlocking.Writing(p, n, false)
                    else RingBlocking.WriteDone(p, n, e))
  {
    n, e := rb.Write(p);
  }

  /** A later round of Write, with `wrote` bytes of `p` in; the register may have changed since the call began. */
  method WriteRound(rb: RingBuffer.RingBuffer, p: seq<Byte>, wrote: nat) returns (n: nat, e: Outcome)
    requires rb.Valid() && wrote < |p|
    modifies rb`w, rb`isFull, rb`accepted, rb.buf
    ensures rb.Valid() && wrote + n <= |p|
    ensures Matches(rb, RingBlocking.DoResume(old(View(rb, [RingBlocking.Writing(p, wrote, true)])), 0, false),
                    if Final(rb.err) then RingBlocking.WriteDone(p, wrote + n, rb.err)
                    else if e.None? then RingBlocking.WriteDone(p, wrote + n, None)
                    else RingBlocking.Writing(p, wrote + n, false))
  {
    n, e := rb.PutBytes(p[wrote..]);
    assert p[wrote..][..n] == p[wrote..wrote + n];
  }

  /** TryWriteByte, and the first stretch of WriteByte. */
  method WriteByteStep(rb: RingBuffer.RingBuffer, c: Byte) returns (e: Outcome)
    requires rb.Valid()
    modifies rb`w, rb`isFull, rb`accepted, rb.buf
    ensures rb.Valid()
    ensures Matches(rb, RingBlocking.Next(old(View(rb, [])), RingBlocking.TryWriteByte(c)),
                    RingBlocking.WriteDone([c], if e.None? then 1 else 0, e))
    ensures Matches(rb, RingBlocking.Next(old(View(rb, [])), RingBlocking.WriteByte(c)),
                    if e == Some(ErrIsFull) then RingBlocking.ByteWriting(c, false)
                    else RingBlocking.WriteDone([c], if e.None? then 1 else 0, e))
  {
    e := rb.WriteByte(c);
  }

  /** A later round of WriteByte. */
  method WriteByteRound(rb: RingBuffer.RingBuffer, c: Byte) returns (e: Outcome)
    requires rb.Valid()
    modifies rb`w, rb`isFull, rb`accepted, rb.buf
    ensures rb.Valid()
    ensures Matches(rb, RingBlocking.DoResume(old(View(rb, [RingBlocking.ByteWriting(c, true)])), 0, false),
                    if Final(rb.err) then RingBlocking.WriteDone([c], if e.None? then 1 else 0, rb.err)
                    else if e.None? then RingBlocking.WriteDone([c], 1, None) else RingBlocking.ByteWriting(c, false))
  {
    e := rb.PutByte(c);
  }

  method CloseStep(rb: RingBuffer.RingBuffer, e: Outcome)
    requires rb.Valid()
    modifies rb`err
    ensures rb.Valid()
    ensures var t := RingBlocking.Next(old(View(rb, [])), RingBlocking.CloseWithError(e));
            t.content == rb.Contents() && t.err == rb.err && t.calls == []
  {
    rb.CloseWithError(e);
  }
}
