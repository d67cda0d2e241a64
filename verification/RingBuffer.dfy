/** The circular byte buffer as an object over an array, in its default non-blocking mode, refining a bounded
    FIFO.  The waiting of the blocking mode is modelled in RingBlocking. */
module RingBuffer {
  import opened Basics
  import opened RingSpec
  import RingLayout

  class RingBuffer {
    const buf: array<Byte>
    const size: nat
    var r: nat        // next position to read
    var w: nat        // next position to write
    var isFull: bool
    var err: Outcome

    // Everything accepted by writes and delivered by reads since construction or Reset.
    ghost var accepted: seq<Byte>
    ghost var delivered: seq<Byte>

    ghost predicate Layout()
      reads this
    {
      size == buf.Length && RingLayout.Layout(size, r, w, isFull)
    }

    /** The unread bytes, oldest first. */
    ghost function Contents(): seq<Byte>
      reads this, buf
      requires Layout()
    {
      RingLayout.Unread(buf[..], r, w, isFull)
    }

    ghost predicate Valid()
      reads this, buf
    {
      && Layout()
      && (err.Some? ==> !Transient(err.value))
      && accepted == delivered + Contents()
    }

    predicate Empty()
      reads this
    {
      r == w && !isFull
    }

    constructor New(size: nat)
      requires size > 0
      ensures Valid() && fresh(buf) && this.size == size
      ensures Contents() == [] && err == None && accepted == [] && delivered == []
    {
      buf := new Byte[size](_ => 0);
      this.size := size;
      r, w, isFull, err := 0, 0, false, None;
      accepted, delivered := [], [];
    }

    // ----- the error register

    method SetErr(e: Outcome) returns (result: Outcome)
      requires Valid()
      modifies this`err
      ensures Valid() && Advances(old(err), err)
      ensures (err, err != old(err) || (!Final(old(err)) && e.Some? && !Transient(e.value)), result)
              == RingSpec.SetErr(old(err), e)
      ensures Final(old(err)) ==> err == old(err) && result == old(err)
      ensures !Final(old(err)) && (e.None? || Transient(e.value)) ==> err == old(err) && result == e
      ensures !Final(old(err)) && e.Some? && !Transient(e.value) ==> err == e && result == e
    {
      if err.Some? && err.value != EOF {
        return err;
      }
      match e {
        case None =>
        case Some(x) =>
          if !Transient(x) {
            err := e;
          }
      }
      return e;
    }

    method ReadErr() returns (result: Outcome)
      requires Valid()
      ensures result == RingSpec.ReadErr(err, Contents() == [])
      ensures Final(err) ==> result == err
      ensures err.None? ==> result.None?
      ensures err == Some(EOF) ==> result == if Contents() == [] then Some(EOF) else None
    {
      if err.Some? {
        if err.value == EOF {
          if w == r && !isFull {
            return Some(EOF);
          }
          return None;
        }
        return err;
      }
      return None;
    }

    /** A transient error is dropped; a final error stays; EOF gives way to a final error.  So a stored error stays, as
        documented, exactly when it is final or the new one is nil, EOF or transient. */
    method CloseWithError(e: Outcome)
      requires Valid()
      modifies this`err
      ensures Valid() && Advances(old(err), err)
      ensures e.None? && !Final(old(err)) ==> err == Some(EOF)
      ensures e.Some? && !Transient(e.value) && !Final(old(err)) ==> err == e
      ensures e.Some? && Transient(e.value) ==> err == old(err)
      ensures old(err).Some? ==>
                (err == old(err) <==> Final(old(err)) || e.None? || e == Some(EOF) || Transient(e.value))
    {
      var _ := SetErr(if e.None? then Some(EOF) else e);
    }

    // ----- reading

    /** copy(p[at:], buf[from:from+n]) */
    method CopyOut(p: array<Byte>, at: nat, from: nat, n: nat)
      requires at + n <= p.Length && from + n <= buf.Length && p != buf
      modifies p
      ensures forall j :: 0 <= j < p.Length ==> p[j] == if at <= j < at + n then buf[from + (j - at)] else old(p[j])
    {
      for i := 0 to n
        invariant forall j :: 0 <= j < p.Length ==> p[j] == if at <= j < at + i then buf[from + (j - at)] else old(p[j])
      {
        p[at + i] := buf[from + i];
      }
    }

    /** Copies the `n` oldest unread bytes to `p`, in one piece or two. */
    method CopyUnread(p: array<Byte>, n: nat)
      requires Layout() && p != buf && n <= p.Length && n <= |Contents()|
      modifies p
      ensures p[..n] == Contents()[..n] && p[n..] == old(p[n..])
    {
      RingLayout.UnreadLength(buf[..], r, w, isFull);
      if r + n <= size {
        CopyOut(p, 0, r, n);
      } else {
        var c1 := size - r;
        CopyOut(p, 0, r, c1);
        CopyOut(p, c1, 0, n - c1);
      }
      forall i | 0 <= i < n ensures p[i] == Contents()[i] {
        RingLayout.UnreadAt(buf[..], r, w, isFull, i);
      }
    }

    /** The private read: `p` must not be empty. */
    method TakeBytes(p: array<Byte>) returns (n: nat, e: Outcome)
      requires Valid() && p != buf && p.Length > 0
      modifies this`r, this`isFull, this`delivered, p
      ensures Valid()
      ensures n == Min(p.Length, |old(Contents())|)
      ensures p[..n] == old(Contents())[..n] && p[n..] == old(p[n..])
      ensures Contents() == old(Contents())[n..] && delivered == old(delivered) + p[..n]
      ensures old(Contents()) == [] ==> e == Some(ErrIsEmpty)
      ensures old(Contents()) != [] ==> e == if old(w) <= old(r) then RingSpec.ReadErr(err, Contents() == []) else None
    {
      if w == r && !isFull {
        return 0, Some(ErrIsEmpty);
      }
      RingLayout.UnreadLength(buf[..], r, w, isFull);
      var wrapped := w <= r;
      n := if wrapped then size - r + w else w - r;
      if n > p.Length {
        n := p.Length;
      }
      CopyUnread(p, n);
      Skip(n, p[..n]);
      e := None;
      if wrapped {
        e := ReadErr();
      }
    }

    /** Moves the read position past the `n` oldest unread bytes, `taken`. */
    method Skip(n: nat, ghost taken: seq<Byte>)
      requires Valid() && 0 < n <= |Contents()| && taken == Contents()[..n]
      modifies this`r, this`isFull, this`delivered
      ensures Valid()
      ensures Contents() == old(Contents())[n..] && delivered == old(delivered) + taken
    {
      ghost var c := Contents();
      RingLayout.ForwardIsModulo(size, r, n);
      RingLayout.ReadDrops(buf[..], r, w, isFull, n);
      r := (r + n) % size;
      isFull := false;
      delivered := delivered + taken;
      assert c == taken + c[n..];
    }

    /** Read and, once the lock is acquired, TryRead. */
    method Read(p: array<Byte>) returns (n: nat, e: Outcome)
      requires Valid() && p != buf
      modifies this`r, this`isFull, this`delivered, p
      ensures Valid()
      ensures n <= p.Length && n <= |old(Contents())|
      ensures p[..n] == old(Contents())[..n] && p[n..] == old(p[n..])
      ensures Contents() == old(Contents())[n..] && delivered == old(delivered) + p[..n]
      ensures var refused := RingSpec.ReadErr(err, old(Contents()) == []);
              if p.Length == 0 || refused.Some? then n == 0 && e == refused
              else n == Min(p.Length, |old(Contents())|) && (n == 0 ==> e == Some(ErrIsEmpty))
      ensures e == Some(EOF) ==> Contents() == []
      ensures Final(err) ==> n == 0 && e == err && Contents() == old(Contents())
      ensures err.None? && p.Length > 0 && old(Contents()) == [] ==> e == Some(ErrIsEmpty)
      ensures err == Some(EOF) && old(Contents()) == [] ==> e == Some(EOF)
      ensures !Final(err) ==> n == Min(p.Length, |old(Contents())|)
      ensures 0 < n ==> e == if old(w) <= old(r) then RingSpec.ReadErr(err, Contents() == []) else None
    {
      e := ReadErr();
      if p.Length == 0 || e.Some? {
        return 0, e;
      }
      n, e := TakeBytes(p);
    }

    method ReadByte() returns (b: Byte, e: Outcome)
      requires Valid()
      modifies this`r, this`isFull, this`delivered
      ensures Valid()
      ensures var refused, c := RingSpec.ReadErr(err, old(Contents()) == []), old(Contents());
              if refused.Some? || c == [] then
                && Contents() == c && delivered == old(delivered)
                && b == 0 && e == (if refused.Some? then refused else Some(ErrIsEmpty))
              else
                && b == c[0] && Contents() == c[1..] && delivered == old(delivered) + [b]
                && e == RingSpec.ReadErr(err, Contents() == [])
      ensures Final(err) ==> e == err && Contents() == old(Contents()) && delivered == old(delivered)
      ensures !Final(err) && old(Contents()) == [] ==> e == if err == Some(EOF) then Some(EOF) else Some(ErrIsEmpty)
      ensures !Final(err) && old(Contents()) != [] ==>
                && Contents() == old(Contents())[1..]
                && e == if err == Some(EOF) && Contents() == [] then Some(EOF) else None
    {
      e := ReadErr();
      if e.Some? {
        return 0, e;
      }
      if w == r && !isFull {
        return 0, Some(ErrIsEmpty);
      }
      b := SkipByte();
      e := ReadErr();
    }

    /** Takes the oldest unread byte. */
    method SkipByte() returns (b: Byte)
      requires Valid() && Contents() != []
      modifies this`r, this`isFull, this`delivered
      ensures Valid()
      ensures b == old(Contents())[0] && Contents() == old(Contents())[1..] && delivered == old(delivered) + [b]
    {
      RingLayout.FirstByte(buf[..], r, w, isFull);
      b := buf[r];
      r := r + 1;
      if r == size {
        r := 0;
      }
      isFull := false;
      delivered := delivered + [b];
    }

    // ----- writing

    /** copy(buf[at:], p[from:from+n]) */
    method CopyIn(p: seq<Byte>, from: nat, at: nat, n: nat)
      requires from + n <= |p| && at + n <= buf.Length
      modifies buf
      ensures forall j :: 0 <= j < buf.Length ==> buf[j] == if at <= j < at + n then p[from + (j - at)] else old(buf[j])
    {
      for i := 0 to n
        invariant forall j :: 0 <= j < buf.Length ==>
                    buf[j] == if at <= j < at + i then p[from + (j - at)] else old(buf[j])
      {
        buf[at + i] := p[from + i];
      }
    }

    /** Writes `p` circularly from the write position on, in one piece or two. */
    method CopyFree(p: seq<Byte>)
      requires Layout() && |p| <= size
      modifies buf
      ensures RingLayout.WrittenAt(old(buf[..]), buf[..], w, p)
    {
      var c1 := size - w;
      if c1 >= |p| {
        CopyIn(p, 0, w, |p|);
      } else {
        CopyIn(p, 0, w, c1);
        CopyIn(p, c1, 0, |p| - c1);
      }
    }

    /** Appends `p` to the unread bytes and moves the write position. */
    method Append(p: seq<Byte>)
      requires Valid() && 0 < |p| && |Contents()| + |p| <= size
      modifies this`w, this`isFull, this`accepted, buf
      ensures Valid()
      ensures Contents() == old(Contents()) + p && accepted == old(accepted) + p
    {
      ghost var b := buf[..];
      CopyFree(p);
      RingLayout.WriteAppends(b, buf[..], r, w, isFull, p);
      w := RingLayout.Forward(size, w, |p|);
      isFull := w == r;
      accepted := accepted + p;
    }

    /** The private write: `p` must not be empty. */
    method PutBytes(p: seq<Byte>) returns (n: nat, e: Outcome)
      requires Valid() && |p| > 0
      modifies this`w, this`isFull, this`accepted, buf
      ensures Valid()
      ensures n == Min(|p|, size - |old(Contents())|)
      ensures Contents() == old(Contents()) + p[..n] && accepted == old(accepted) + p[..n]
      ensures e == if |old(Contents())| == size then Some(ErrIsFull)
                   else if n < |p| then Some(ErrTooMuchDataToWrite) else None
    {
      RingLayout.UnreadLength(buf[..], r, w, isFull);
      if isFull {
        return 0, Some(ErrIsFull);
      }
      var avail := if w >= r then size - w + r else r - w;
      n, e := |p|, None;
      if |p| > avail {
        n, e := avail, Some(ErrTooMuchDataToWrite);
      }
      Append(p[..n]);
    }

    /** Write and, once the lock is acquired, TryWrite: a short write comes with an error. */
    method Write(p: seq<Byte>) returns (n: nat, e: Outcome)
      requires Valid()
      modifies this`w, this`isFull, this`accepted, buf
      ensures Valid()
      ensures n <= |p| && (n < |p| ==> e.Some?)
      ensures Contents() == old(Contents()) + p[..n] && accepted == old(accepted) + p[..n]
      ensures var refused := WriteRefused(err);
              if p == [] then e == (if Final(err) then err else None)
              else if refused.Some? then n == 0 && e == refused
              else n == Min(|p|, size - |old(Contents())|)
                   && e == (if |old(Contents())| == size then Some(ErrIsFull)
                            else if n < |p| then Some(ErrTooMuchDataToWrite) else None)
      ensures p != [] && err == Some(EOF) ==> n == 0 && e == Some(ErrWriteOnClosed)
      ensures Final(err) ==> n == 0 && e == err
      ensures err.None? ==> n == Min(|p|, size - |old(Contents())|) && (n == |p| <==> e.None?)
    {
      if |p| == 0 {
        return 0, if Final(err) then err else None;
      }
      e := WriteRefused(err);
      if e.Some? {
        return 0, e;
      }
      n, e := PutBytes(p);
    }

    method WriteByte(c: Byte) returns (e: Outcome)
      requires Valid()
      modifies this`w, this`isFull, this`accepted, buf
      ensures Valid()
      ensures e == if err == Some(EOF) then Some(ErrWriteOnClosed)
                   else if err.Some? then err
                   else if |old(Contents())| == size then Some(ErrIsFull) else None
      ensures Contents() == old(Contents()) + (if e.None? then [c] else [])
      ensures accepted == old(accepted) + (if e.None? then [c] else [])
    {
      e := WriteRefused(err);
      if e.Some? {
        return;
      }
      e := PutByte(c);
    }

    /** The private writeByte. */
    method PutByte(c: Byte) returns (e: Outcome)
      requires Valid()
      modifies this`w, this`isFull, this`accepted, buf
      ensures Valid()
      ensures e == if |old(Contents())| == size then Some(ErrIsFull) else None
      ensures Contents() == old(Contents()) + (if e.None? then [c] else [])
      ensures accepted == old(accepted) + (if e.None? then [c] else [])
    {
      RingLayout.UnreadLength(buf[..], r, w, isFull);
      if w == r && isFull {
        return Some(ErrIsFull);
      }
      e := None;
      AppendByte(c);
    }

    /** Appends one byte when there is room. */
    method AppendByte(c: Byte)
      requires Valid() && |Contents()| < size
      modifies this`w, this`isFull, this`accepted, buf
      ensures Valid()
      ensures Contents() == old(Contents()) + [c] && accepted == old(accepted) + [c]
    {
      ghost var b := buf[..];
      buf[w] := c;
      assert RingLayout.WrittenAt(b, buf[..], w, [c]);
      RingLayout.WriteAppends(b, buf[..], r, w, isFull, [c]);
      w := w + 1;
      if w == size {
        w := 0;
      }
      if w == r {
        isFull := true;
      }
      accepted := accepted + [c];
    }

    // ----- looking

    method Length() returns (n: nat)
      requires Valid()
      ensures n == |Contents()| && |accepted| == |delivered| + n
    {
      RingLayout.UnreadLength(buf[..], r, w, isFull);
      if w == r {
        return if isFull then size else 0;
      }
      if w > r {
        return w - r;
      }
      return size - r + w;
    }

    method Free() returns (n: nat)
      requires Valid()
      ensures |Contents()| + n == size
    {
      RingLayout.UnreadLength(buf[..], r, w, isFull);
      if w == r {
        return if isFull then 0 else size;
      }
      if w < r {
        return r - w;
      }
      return size - w + r;
    }

    method IsEmpty() returns (b: bool)
      requires Valid()
      ensures b <==> Contents() == []
    {
      RingLayout.UnreadLength(buf[..], r, w, isFull);
      b := !isFull && w == r;
    }

    method IsFull() returns (b: bool)
      requires Valid()
      ensures b <==> |Contents()| == size
    {
      RingLayout.UnreadLength(buf[..], r, w, isFull);
      b := isFull;
    }

    /** A copy of the unread bytes, in `dst` when it is big enough and otherwise in a new array. */
    method Bytes(dst: array<Byte>) returns (out: array<Byte>, n: nat)
      requires Valid() && dst != buf
      modifies dst
      ensures Valid() && Contents() == old(Contents())
      ensures n == |Contents()| <= out.Length && out[..n] == Contents()
      ensures out == dst || (fresh(out) && dst.Length < n)
    {
      RingLayout.UnreadLength(buf[..], r, w, isFull);
      n := if w > r then w - r else if w == r then (if isFull then size else 0) else size - r + w;
      out := dst;
      if dst.Length < n {
        out := new Byte[n](_ => 0);
      }
      CopyUnread(out, n);
    }

    /** Calls in progress must have finished: the source waits for its readers before it clears the buffer. */
    method Reset()
      requires Valid()
      modifies this`r, this`w, this`isFull, this`err, this`accepted, this`delivered
      ensures Valid() && Contents() == [] && err == None && accepted == delivered == []
    {
      r, w, isFull, err := 0, 0, false, None;
      accepted, delivered := [], [];
    }
  }

  // ----- clients

  /** An EOF is overwritten, against the documentation. */
  method EofIsOverwritten(size: nat) returns (stored: Outcome, after: Outcome)
    requires size > 0
    ensures stored == Some(EOF) && after == Some(Other(7))
  {
    var rb := new RingBuffer.New(size);
    rb.CloseWithError(None);
    stored := rb.err;
    rb.CloseWithError(Some(Other(7)));
    after := rb.err;
  }

  /** Bytes shows exactly what one large enough Read delivers next. */
  method BytesThenRead(rb: RingBuffer, dst: array<Byte>, p: array<Byte>) returns (shown: seq<Byte>, read: seq<Byte>)
    requires rb.Valid() && rb.err in {None, Some(EOF)} && dst != rb.buf && p != rb.buf && p != dst
    requires |rb.Contents()| <= p.Length
    modifies rb`r, rb`isFull, rb`delivered, dst, p
    ensures shown == read == old(rb.Contents()) && rb.Valid() && rb.Contents() == []
  {
    var out, n := rb.Bytes(dst);
    shown := out[..n];
    var m, e := rb.Read(p);
    read := p[..m];
  }

  /** One round: it adds what it reads to `got`, or meets the end. */
  method ReadMore(rb: RingBuffer, p: array<Byte>, got: seq<Byte>) returns (out: seq<Byte>, e: Outcome)
    requires rb.Valid() && rb.err == Some(EOF) && p != rb.buf && p.Length > 0
    modifies rb`r, rb`isFull, rb`delivered, p
    ensures rb.Valid() && out + rb.Contents() == got + old(rb.Contents())
    ensures if e.None? then |rb.Contents()| < |old(rb.Contents())| else e == Some(EOF) && rb.Contents() == []
  {
    ghost var c := rb.Contents();
    var n;
    n, e := rb.Read(p);
    out := got + p[..n];
    assert c == c[..n] + c[n..];
  }

  /** After the writer has closed, a loop of reads delivers exactly the remaining bytes and ends with EOF. */
  method Drain(rb: RingBuffer, p: array<Byte>) returns (out: seq<Byte>, e: Outcome)
    requires rb.Valid() && rb.err == Some(EOF) && p != rb.buf && p.Length > 0
    modifies rb`r, rb`isFull, rb`delivered, p
    ensures rb.Valid() && e == Some(EOF) && out == old(rb.Contents()) && rb.Contents() == []
    ensures rb.delivered == rb.accepted == old(rb.accepted)
  {
    out, e := ReadMore(rb, p, []);
    while e.None?
      invariant rb.Valid() && out + rb.Contents() == old(rb.Contents())
      invariant e.Some? ==> e == Some(EOF) && rb.Contents() == []
      decreases |rb.Contents()|, e.None?
    {
      out, e := ReadMore(rb, p, out);
    }
  }
}
