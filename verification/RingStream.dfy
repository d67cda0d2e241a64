/** The byte stream through the blocking ring buffer, and its error register, over every run. */
module RingStream {
  import opened Basics
  import opened RingSpec
  import opened RingBlocking

  // ----- a FIFO

  function BytesOf(log: seq<(CallId, Byte)>): seq<Byte> {
    seq(|log|, i requires 0 <= i < |log| => log[i].1)
  }

  /** The bytes that call `id` has put in, in order. */
  function From(log: seq<(CallId, Byte)>, id: CallId): seq<Byte> {
    if log == [] then []
    else From(log[..|log| - 1], id) + if log[|log| - 1].0 == id then [log[|log| - 1].1] else []
  }

  lemma {:induction false} FromConcat(log: seq<(CallId, Byte)>, more: seq<(CallId, Byte)>, id: CallId)
    ensures From(log + more, id) == From(log, id) + From(more, id)
  {
    if more == [] {
      assert log + more == log;
    } else {
      var n := |more| - 1;
      FromConcat(log, more[..n], id);
      assert (log + more)[..|log| + n] == log + more[..n];
    }
  }

  lemma {:induction false} FromTag(id: CallId, p: seq<Byte>, j: CallId)
    ensures From(Tag(id, p), j) == if j == id then p else []
  {
    if p != [] {
      var n := |p| - 1;
      FromTag(id, p[..n], j);
      assert Tag(id, p)[..n] == Tag(id, p[..n]);
      assert p == p[..n] + [p[n]];
    }
  }

  /** What a call's own record says it has put in.  After a wait WriteByte can report a final error for a byte
      that it has put in, so its count, not its error, tells. */
  predicate Accounted(c: Call, mine: seq<Byte>) {
    match c
    case Writing(p, wrote, _) => wrote < |p| && mine == p[..wrote]
    case ByteWriting(_, _) => mine == []
    case WriteDone(p, n, e) => n <= |p| && mine == p[..n] && (n < |p| ==> e.Some?)
    case _ => mine == []
  }

  ghost predicate StreamOk(s: Ring) {
    && 0 < s.size && |s.content| <= s.size
    && BytesOf(s.log) == s.delivered + s.content
    && (forall i :: 0 <= i < |s.log| ==> s.log[i].0 < |s.calls|)
    && (forall id :: 0 <= id < |s.calls| ==> Accounted(s.calls[id], From(s.log, id)))
  }

  /** The stream part of a step that replaces one call's record and accepts `p` from it. */
  lemma {:induction false} AcceptOk(s: Ring, t: Ring, id: CallId, p: seq<Byte>)
    requires StreamOk(s) && id < |s.calls| == |t.calls| && |s.content| + |p| <= s.size
    requires t.size == s.size && t.content == s.content + p && t.log == s.log + Tag(id, p) && t.delivered == s.delivered
    requires Accounted(t.calls[id], From(s.log, id) + p)
    requires forall j :: 0 <= j < |s.calls| && j != id ==> SameRecord(s.calls[j], t.calls[j])
    ensures StreamOk(t)
  {
    assert BytesOf(t.log) == BytesOf(s.log) + p;
    forall j | 0 <= j < |t.calls| ensures Accounted(t.calls[j], From(t.log, j)) {
      FromConcat(s.log, Tag(id, p), j);
      FromTag(id, p, j);
      assert j != id ==> Accounted(s.calls[j], From(s.log, j)) && From(t.log, j) == From(s.log, j);
    }
  }

  /** The same call, perhaps woken. */
  predicate SameRecord(a: Call, b: Call) {
    b == a || b == WakeReader(a) || b == WakeWriter(a) || b == WakeReader(WakeWriter(a))
  }

  lemma {:induction false} DeliverOk(s: Ring, t: Ring, id: CallId, n: nat)
    requires StreamOk(s) && id < |s.calls| == |t.calls| && n <= |s.content|
    requires t.size == s.size && t.content == s.content[n..] && t.log == s.log
    requires t.delivered == s.delivered + s.content[..n]
    requires Accounted(t.calls[id], From(s.log, id))
    requires forall j :: 0 <= j < |s.calls| && j != id ==> SameRecord(s.calls[j], t.calls[j])
    ensures StreamOk(t)
  {
    assert s.content == s.content[..n] + s.content[n..];
    forall j | 0 <= j < |t.calls| ensures Accounted(t.calls[j], From(t.log, j)) {
      assert j != id ==> Accounted(s.calls[j], From(s.log, j));
    }
  }

  // ----- each stretch

  lemma {:induction false} ReadStream(s: Ring, id: CallId, len: nat, wrapped: bool, block: bool)
    requires StreamOk(s) && id < |s.calls| && From(s.log, id) == []
    ensures StreamOk(DoRead(s, id, len, wrapped, block))
  {
    var t := DoRead(s, id, len, wrapped, block);
    var took := len != 0 && ReadErr(s.err, s.content == []).None? && s.content != [];
    DeliverOk(s, t, id, if took then Min(len, |s.content|) else 0);
  }

  lemma {:induction false} ReadByteStream(s: Ring, id: CallId)
    requires StreamOk(s) && id < |s.calls| && From(s.log, id) == []
    ensures StreamOk(DoReadByte(s, id))
  {
    var t := DoReadByte(s, id);
    var took := ReadErr(s.err, s.content == []).None? && s.content != [];
    DeliverOk(s, t, id, if took then 1 else 0);
  }

  lemma {:induction false} WriteStream(s: Ring, id: CallId, p: seq<Byte>, wrote: nat)
    requires StreamOk(s) && id < |s.calls| && wrote < |p| && From(s.log, id) == p[..wrote]
    ensures StreamOk(DoWrite(s, id, p, wrote))
  {
    var n := Min(|p| - wrote, Room(s));
    assert p[..wrote] + p[wrote..wrote + n] == p[..wrote + n];
    AcceptOk(s, DoWrite(s, id, p, wrote), id, p[wrote..wrote + n]);
  }

  lemma {:induction false} TryWriteStream(s: Ring, id: CallId, p: seq<Byte>)
    requires StreamOk(s) && id < |s.calls| && From(s.log, id) == []
    ensures StreamOk(DoTryWrite(s, id, p))
  {
    var n := Min(|p|, Room(s));
    AcceptOk(s, DoTryWrite(s, id, p), id, p[..n]);
  }

  lemma {:induction false} WriteByteStream(s: Ring, id: CallId, c: Byte, block: bool)
    requires StreamOk(s) && id < |s.calls| && From(s.log, id) == []
    ensures StreamOk(DoWriteByte(s, id, c, block))
  {
    var t := DoWriteByte(s, id, c, block);
    if Room(s) == 0 { DeliverOk(s, t, id, 0); } else { AcceptOk(s, t, id, [c]); }
  }

  lemma {:induction false} CloseStream(s: Ring, e: Outcome)
    requires StreamOk(s)
    ensures StreamOk(DoClose(s, e))
  {
    var t := DoClose(s, e);
    forall j | 0 <= j < |t.calls| ensures Accounted(t.calls[j], From(t.log, j)) {
      assert Accounted(s.calls[j], From(s.log, j));
    }
  }

  lemma {:induction false} ResumeStream(s: Ring, id: CallId, wrapped: bool)
    requires StreamOk(s) && id < |s.calls|
    ensures StreamOk(DoResume(s, id, wrapped))
  {
    assert Accounted(s.calls[id], From(s.log, id));
    match s.calls[id]
    case Reading(len, true) => ReadStream(s, id, len, wrapped, true);
    case ByteReading(true) => ReadByteStream(s, id);
    case Writing(p, wrote, true) => WriteStream(s, id, p, wrote);
    case ByteWriting(c, true) => WriteByteStream(s, id, c, true);
    case _ =>
  }

  /** A new call has put nothing in. */
  lemma {:induction false} FromNobody(log: seq<(CallId, Byte)>, id: CallId)
    requires forall i :: 0 <= i < |log| ==> log[i].0 != id
    ensures From(log, id) == []
  {
    if log != [] { FromNobody(log[..|log| - 1], id); }
  }

  lemma {:induction false} BeginStream(s: Ring, c: Call)
    requires StreamOk(s) && Accounted(c, [])
    ensures StreamOk(Begin(s, c)) && From(s.log, |s.calls|) == []
  {
    var t := Begin(s, c);
    FromNobody(s.log, |s.calls|);
    forall j | 0 <= j < |t.calls| ensures Accounted(t.calls[j], From(t.log, j)) {
      if j < |s.calls| { assert Accounted(s.calls[j], From(s.log, j)); }
    }
  }

  lemma {:induction false} StartWriteStream(s: Ring, a: Action)
    requires StreamOk(s) && (a.Write? || a.TryWrite? || a.WriteByte? || a.TryWriteByte?)
    ensures StreamOk(StartWrite(s, a))
  {
    var id, p, t := |s.calls|, Argument(a), Begin(s, WriteDone([], 0, None));
    BeginStream(s, WriteDone([], 0, None));
    if p == [] {
      BeginStream(s, WriteDone([], 0, if Final(s.err) then s.err else None));
    } else if WriteRefused(s.err).Some? {
      BeginStream(s, WriteDone(p, 0, WriteRefused(s.err)));
    } else {
      match a
      case Write(_) => WriteStream(t, id, p, 0);
      case TryWrite(_) => TryWriteStream(t, id, p);
      case WriteByte(c) => WriteByteStream(t, id, c, true);
      case TryWriteByte(c) => WriteByteStream(t, id, c, false);
    }
  }

  lemma {:induction false} NextStream(s: Ring, a: Action)
    requires StreamOk(s)
    ensures StreamOk(Next(s, a))
  {
    var id, t := |s.calls|, StartRead(s);
    BeginStream(s, ReadDone([], None));
    match a
    case Read(len, wrapped) => ReadStream(t, id, len, wrapped, true);
    case TryRead(len, wrapped) => ReadStream(t, id, len, wrapped, false);
    case ReadByte => ReadByteStream(t, id);
    case CloseWithError(e) => CloseStream(s, e);
    case Resume(i, wrapped) => if i < |s.calls| { ResumeStream(s, i, wrapped); }
    case _ => StartWriteStream(s, a);
  }

  /** Over every run of any reads, writes, waits and closes: the bytes delivered followed by the bytes held are
      the bytes accepted, in order; and what each call has put in, whatever happened at its waits, is the first
      bytes of its argument, in order, all of them unless it reports an error. */
  lemma {:induction false} StreamIsFifo(size: nat, acts: seq<Action>)
    requires 0 < size
    ensures StreamOk(Run(size, acts))
  {
    if acts != [] {
      StreamIsFifo(size, acts[..|acts| - 1]);
      NextStream(Run(size, acts[..|acts| - 1]), acts[|acts| - 1]);
    }
  }

  // ----- the error register

  ghost predicate StoredOk(s: Ring) {
    s.err.Some? ==> !Transient(s.err.value)
  }

  /** The register moves only from nil to EOF to a final error, and a transient error is never stored. */
  lemma {:induction false} RegisterAdvances(s: Ring, a: Action)
    ensures Advances(s.err, Next(s, a).err)
    ensures StoredOk(s) ==> StoredOk(Next(s, a))
    ensures Next(s, a).err != s.err ==> a.CloseWithError?
  {
  }

  /** A stored error survives a close exactly when it is final, or the close brings no final error. */
  lemma {:induction false} CloseKeepsExactly(s: Ring, e: Outcome)
    requires s.err.Some?
    ensures Next(s, CloseWithError(e)).err == s.err
            <==> Final(s.err) || e.None? || e == Some(EOF) || Transient(e.value)
  {
  }

  /** A final error, once stored, is there for ever. */
  lemma {:induction false} FinalIsForEver(size: nat, acts: seq<Action>, i: nat)
    requires i <= |acts| && Final(Run(size, acts[..i]).err)
    ensures Run(size, acts).err == Run(size, acts[..i]).err
    decreases |acts|
  {
    if i == |acts| {
      assert acts[..i] == acts;
    } else {
      var n := |acts| - 1;
      assert acts[..n][..i] == acts[..i];
      FinalIsForEver(size, acts[..n], i);
      RegisterAdvances(Run(size, acts[..n]), acts[n]);
    }
  }

  /** Every read result that is not in `before` and says EOF goes with an empty buffer. */
  ghost predicate EofOk(before: seq<Call>, t: Ring) {
    forall id :: 0 <= id < |t.calls| && t.calls[id].ReadDone? && t.calls[id].e == Some(EOF) ==>
      (id < |before| && before[id] == t.calls[id]) || (t.content == [] && t.err == Some(EOF))
  }

  lemma {:induction false} ResumeEof(s: Ring, id: CallId, wrapped: bool)
    requires id < |s.calls|
    ensures EofOk(s.calls, DoResume(s, id, wrapped))
  {
  }

  lemma {:induction false} WriteEof(s: Ring, a: Action)
    requires a.Write? || a.TryWrite? || a.WriteByte? || a.TryWriteByte?
    ensures EofOk(s.calls, StartWrite(s, a))
  {
  }

  /** EOF is never reported while unread bytes remain. */
  lemma {:induction false} EofMeansEmpty(s: Ring, a: Action)
    ensures EofOk(s.calls, Next(s, a))
  {
    match a
    case Read(_, _) =>
    case TryRead(_, _) =>
    case ReadByte =>
    case CloseWithError(_) =>
    case Resume(id, wrapped) => if id < |s.calls| { ResumeEof(s, id, wrapped); }
    case _ => WriteEof(s, a);
  }

  // ----- closing and draining

  ghost predicate Closed(s: Ring) {
    s.err.Some? && forall id :: 0 <= id < |s.calls| ==> !s.calls[id].Writing? && !s.calls[id].ByteWriting?
  }

  /** After the buffer is closed with no writer waiting, nothing more gets in. */
  lemma {:induction false} ClosedStays(s: Ring, a: Action)
    requires Closed(s)
    ensures Closed(Next(s, a)) && Next(s, a).log == s.log
    ensures Next(s, a).delivered + Next(s, a).content == s.delivered + s.content
    ensures |Next(s, a).content| <= |s.content|
  {
    match a
    case Read(_, _) => ClosedRead(s, a);
    case TryRead(_, _) => ClosedRead(s, a);
    case ReadByte => ClosedRead(s, a);
    case CloseWithError(_) =>
    case Resume(id, wrapped) => if id < |s.calls| { ClosedResume(s, id, wrapped); }
    case _ => ClosedWrite(s, a);
  }

  lemma {:induction false} ClosedRead(s: Ring, a: Action)
    requires Closed(s) && (a.Read? || a.TryRead? || a.ReadByte?)
    ensures var t := Next(s, a);
            && Closed(t) && t.log == s.log && |t.content| <= |s.content|
            && t.delivered + t.content == s.delivered + s.content
  {
    if a.ReadByte? {
      ClosedTakes(s, 1);
    } else {
      ClosedTakes(s, Min(a.len, |s.content|));
    }
  }

  lemma {:induction false} ClosedTakes(s: Ring, n: nat)
    ensures n <= |s.content| ==> (s.delivered + s.content[..n]) + s.content[n..] == s.delivered + s.content
  {
    if n <= |s.content| { assert s.content[..n] + s.content[n..] == s.content; }
  }

  lemma {:induction false} ClosedWrite(s: Ring, a: Action)
    requires Closed(s) && (a.Write? || a.TryWrite? || a.WriteByte? || a.TryWriteByte?)
    ensures var t := StartWrite(s, a); Closed(t) && t == s.(calls := t.calls)
  {
  }

  lemma {:induction false} ClosedResume(s: Ring, id: CallId, wrapped: bool)
    requires Closed(s) && id < |s.calls|
    ensures var t := DoResume(s, id, wrapped);
            && Closed(t) && t.log == s.log && |t.content| <= |s.content|
            && t.delivered + t.content == s.delivered + s.content
  {
  }

  /** Each non-empty Read after EOF takes at least one byte, or reports EOF on an empty buffer. */
  lemma {:induction false} ReadProgress(s: Ring, a: Action)
    requires Closed(s) && s.err == Some(EOF) && a.Read? && 0 < a.len
    ensures var t := Next(s, a);
            if s.content == [] then t.calls[|s.calls|] == ReadDone([], Some(EOF))
            else |t.content| < |s.content|
                 && t.calls[|s.calls|].ReadDone? && t.calls[|s.calls|].got == s.content[..Min(a.len, |s.content|)]
  {
  }

  predicate Reads(a: Action) {
    a.Read? && 0 < a.len
  }

  function CountReads(acts: seq<Action>): nat {
    if acts == [] then 0
    else CountReads(acts[..|acts| - 1]) + if Reads(acts[|acts| - 1]) then 1 else 0
  }

  /** After EOF with no writer waiting, whatever else happens short of a final error, as many non-empty reads as
      there are unread bytes deliver exactly those bytes. */
  lemma {:induction false} Drains(s: Ring, acts: seq<Action>)
    requires Closed(s) && s.err == Some(EOF)
    requires forall i :: 0 <= i < |acts| ==> !acts[i].CloseWithError?
    ensures Closed(RunFrom(s, acts)) && RunFrom(s, acts).err == Some(EOF)
    ensures RunFrom(s, acts).delivered + RunFrom(s, acts).content == s.delivered + s.content
    ensures |RunFrom(s, acts).content| + CountReads(acts) <= |s.content| || RunFrom(s, acts).content == []
    ensures |s.content| <= CountReads(acts) ==>
              RunFrom(s, acts).content == [] && RunFrom(s, acts).delivered == s.delivered + s.content
  {
    if acts != [] {
      var n := |acts| - 1;
      var t := RunFrom(s, acts[..n]);
      Drains(s, acts[..n]);
      ClosedStays(t, acts[n]);
      RegisterAdvances(t, acts[n]);
      if Reads(acts[n]) { ReadProgress(t, acts[n]); }
    }
  }
}
