/** What the blocking ring buffer keeps over every run. */
module RingSafety {
  import opened Basics
  import opened RingSpec
  import opened RingBlocking

  // ----- no lost wake-up

  predicate AsleepReader(c: Call) {
    (c.Reading? && !c.woken) || (c.ByteReading? && !c.woken)
  }

  predicate AsleepWriter(c: Call) {
    (c.Writing? && !c.woken) || (c.ByteWriting? && !c.woken)
  }

  /** A reader sleeps only while there is nothing to read and no error; a writer only while there is no room. */
  ghost predicate SleepOk(s: Ring) {
    && 0 < s.size && |s.content| <= s.size
    && forall id :: 0 <= id < |s.calls| ==>
         && (AsleepReader(s.calls[id]) ==> s.content == [] && s.err.None?)
         && (AsleepWriter(s.calls[id]) ==> |s.content| == s.size && !Final(s.err))
  }

  /** The one flaw: ReadByte, at once or after a wait, takes a byte and leaves a sleeping writer asleep. */
  ghost predicate LosesWakeUp(s: Ring, a: Action) {
    && (a.ReadByte? || (a.Resume? && a.id < |s.calls| && s.calls[a.id] == ByteReading(true)))
    && s.content != [] && ReadErr(s.err, false).None?
    && exists id :: 0 <= id < |s.calls| && AsleepWriter(s.calls[id])
  }

  lemma {:induction false} ReadSleepOk(s: Ring, id: CallId, len: nat, wrapped: bool, block: bool)
    requires SleepOk(s) && id < |s.calls|
    ensures SleepOk(DoRead(s, id, len, wrapped, block))
  {
  }

  lemma {:induction false} WriteSleepOk(s: Ring, id: CallId, p: seq<Byte>, wrote: nat)
    requires SleepOk(s) && id < |s.calls| && wrote < |p|
    ensures SleepOk(DoWrite(s, id, p, wrote))
  {
  }

  lemma {:induction false} TryWriteSleepOk(s: Ring, id: CallId, p: seq<Byte>)
    requires SleepOk(s) && id < |s.calls|
    ensures SleepOk(DoTryWrite(s, id, p))
  {
  }

  lemma {:induction false} WriteByteSleepOk(s: Ring, id: CallId, c: Byte, block: bool)
    requires SleepOk(s) && id < |s.calls|
    ensures SleepOk(DoWriteByte(s, id, c, block))
  {
  }

  lemma {:induction false} BeginSleepOk(s: Ring, c: Call)
    requires SleepOk(s) && !AsleepReader(c) && !AsleepWriter(c)
    ensures SleepOk(Begin(s, c))
    ensures forall id :: 0 <= id < |s.calls| ==> Begin(s, c).calls[id] == s.calls[id]
  {
  }

  lemma {:induction false} StartWriteSleepOk(s: Ring, a: Action)
    requires SleepOk(s) && (a.Write? || a.TryWrite? || a.WriteByte? || a.TryWriteByte?)
    ensures SleepOk(StartWrite(s, a))
  {
    var id, p, t := |s.calls|, Argument(a), Begin(s, WriteDone([], 0, None));
    BeginSleepOk(s, WriteDone([], 0, None));
    if p == [] {
      BeginSleepOk(s, WriteDone([], 0, if Final(s.err) then s.err else None));
    } else if WriteRefused(s.err).Some? {
      BeginSleepOk(s, WriteDone(p, 0, WriteRefused(s.err)));
    } else {
      match a
      case Write(_) => WriteSleepOk(t, id, p, 0);
      case TryWrite(_) => TryWriteSleepOk(t, id, p);
      case WriteByte(c) => WriteByteSleepOk(t, id, c, true);
      case TryWriteByte(c) => WriteByteSleepOk(t, id, c, false);
    }
  }

  lemma {:induction false} ReadByteSleepOk(s: Ring, id: CallId)
    requires SleepOk(s) && id < |s.calls| && !AsleepWriter(s.calls[id])
    ensures SleepOk(DoReadByte(s, id)) <==>
              || s.content == [] || ReadErr(s.err, false).Some?
              || forall j :: 0 <= j < |s.calls| ==> !AsleepWriter(s.calls[j])
  {
    var t := DoReadByte(s, id);
    if j :| 0 <= j < |s.calls| && AsleepWriter(s.calls[j]) {
      assert t.calls[j] == s.calls[j];
    }
  }

  lemma {:induction false} ResumeSleepOk(s: Ring, id: CallId, wrapped: bool)
    requires SleepOk(s) && id < |s.calls| && s.calls[id] != ByteReading(true)
    ensures SleepOk(DoResume(s, id, wrapped))
  {
    match s.calls[id]
    case Reading(len, true) => ReadSleepOk(s, id, len, wrapped, true);
    case Writing(p, wrote, true) => if wrote < |p| { WriteSleepOk(s, id, p, wrote); }
    case ByteWriting(c, true) => WriteByteSleepOk(s, id, c, true);
    case _ =>
  }

  /** Exactly when an action keeps the sleepers right. */
  lemma {:induction false} NextSleepOk(s: Ring, a: Action)
    requires SleepOk(s)
    ensures SleepOk(Next(s, a)) <==> !LosesWakeUp(s, a)
  {
    var id, t := |s.calls|, StartRead(s);
    BeginSleepOk(s, ReadDone([], None));
    match a
    case Read(len, wrapped) => ReadSleepOk(t, id, len, wrapped, true);
    case TryRead(len, wrapped) => ReadSleepOk(t, id, len, wrapped, false);
    case ReadByte =>
      ReadByteSleepOk(t, id);
      if j :| 0 <= j < |s.calls| && AsleepWriter(s.calls[j]) { assert AsleepWriter(t.calls[j]); }
    case CloseWithError(e) =>
    case Resume(i, wrapped) =>
      if i < |s.calls| {
        if s.calls[i] == ByteReading(true) { ReadByteSleepOk(s, i); } else { ResumeSleepOk(s, i, wrapped); }
      }
    case _ => StartWriteSleepOk(s, a);
  }

  /** No lost wake-up: in every reachable state of a run in which no ReadByte takes a byte past a sleeping writer
      (in particular when consumers use Read and TryRead), a call sleeps only while it has nothing to do, and a
      reader and a writer are never asleep together. */
  lemma {:induction false} NoLostWakeUp(size: nat, acts: seq<Action>)
    requires 0 < size
    requires forall i :: 0 <= i < |acts| ==> !LosesWakeUp(Run(size, acts[..i]), acts[i])
    ensures SleepOk(Run(size, acts))
    ensures var s := Run(size, acts);
            forall i, j :: 0 <= i < |s.calls| && 0 <= j < |s.calls| ==>
              !(AsleepReader(s.calls[i]) && AsleepWriter(s.calls[j]))
  {
    if acts != [] {
      var n := |acts| - 1;
      forall i | 0 <= i < n ensures !LosesWakeUp(Run(size, acts[..n][..i]), acts[..n][i]) {
        assert acts[..n][..i] == acts[..i];
      }
      NoLostWakeUp(size, acts[..n]);
      NextSleepOk(Run(size, acts[..n]), acts[n]);
    }
  }

  /** Consumers that use only Read and TryRead lose no wake-up. */
  lemma {:induction false} WithoutReadByte(size: nat, acts: seq<Action>)
    requires 0 < size && forall i :: 0 <= i < |acts| ==> !acts[i].ReadByte?
    ensures SleepOk(Run(size, acts))
    ensures NoByteReader(Run(size, acts))
  {
    if acts != [] {
      var n := |acts| - 1;
      WithoutReadByte(size, acts[..n]);
      NextSleepOk(Run(size, acts[..n]), acts[n]);
      NextKeepsOut(Run(size, acts[..n]), acts[n]);
    }
  }

  ghost predicate NoByteReader(s: Ring) {
    forall id :: 0 <= id < |s.calls| ==> !s.calls[id].ByteReading?
  }

  lemma {:induction false} WriteKeepsOut(s: Ring, a: Action)
    requires NoByteReader(s) && (a.Write? || a.TryWrite? || a.WriteByte? || a.TryWriteByte?)
    ensures NoByteReader(StartWrite(s, a))
  {
    assert NoByteReader(Begin(s, WriteDone([], 0, None)));
  }

  lemma {:induction false} ResumeKeepsOut(s: Ring, id: CallId, wrapped: bool)
    requires NoByteReader(s) && id < |s.calls|
    ensures NoByteReader(DoResume(s, id, wrapped))
  {
  }

  lemma {:induction false} NextKeepsOut(s: Ring, a: Action)
    requires !a.ReadByte? && NoByteReader(s)
    ensures NoByteReader(Next(s, a))
  {
    match a
    case Read(_, _) => assert NoByteReader(StartRead(s));
    case TryRead(_, _) => assert NoByteReader(StartRead(s));
    case CloseWithError(_) =>
    case Resume(id, wrapped) => if id < |s.calls| { ResumeKeepsOut(s, id, wrapped); }
    case _ => WriteKeepsOut(s, a);
  }

  /** Every call that waits is asleep. */
  predicate AllAsleep(s: Ring) {
    forall id :: 0 <= id < |s.calls| ==>
      s.calls[id].ReadDone? || s.calls[id].WriteDone? || AsleepReader(s.calls[id]) || AsleepWriter(s.calls[id])
  }

  predicate OnlyResumes(acts: seq<Action>) {
    forall i :: 0 <= i < |acts| ==> acts[i].Resume?
  }

  /** Calls that all sleep do so until a new call wakes one of them. */
  lemma {:induction false} AsleepForEver(s: Ring, acts: seq<Action>)
    requires AllAsleep(s) && OnlyResumes(acts)
    ensures RunFrom(s, acts) == s
  {
    if acts != [] {
      AsleepForEver(s, acts[..|acts| - 1]);
      var a := acts[|acts| - 1];
      if a.id < |s.calls| { assert s.calls[a.id] == s.calls[a.id]; }
    }
  }

  lemma {:induction false} WriterLeftAsleep()
    ensures var s := Run(1, [Write([1, 2]), ReadByte]);
            |s.calls| == 2 && s.calls[0] == Writing([1, 2], 1, false) && s.calls[1].ReadDone?
            && s.content == [] && s.err.None?
  {
    var s1 := Next(New(1), Write([1, 2]));
    assert s1.calls == [Writing([1, 2], 1, false)] && s1.content == [1];
    RunMore(New(1), [], Write([1, 2]));
    RunMore(New(1), [Write([1, 2])], ReadByte);
    assert [] + [Write([1, 2])] == [Write([1, 2])];
    assert [Write([1, 2])] + [ReadByte] == [Write([1, 2]), ReadByte];
  }

  /** With ReadByte a reader and a writer can both sleep, each waiting for what the other could do, until another call
      is made: a one-byte buffer, a two-byte Write, a ReadByte, and a Read. */
  lemma {:induction false} ReadByteLosesAWakeUp(more: seq<Action>)
    requires OnlyResumes(more)
    ensures var s := RunFrom(Run(1, [Write([1, 2]), ReadByte, Read(1, false)]), more);
            |s.calls| == 3 && AsleepWriter(s.calls[0]) && AsleepReader(s.calls[2]) && s.content == []
  {
    WriterLeftAsleep();
    RunMore(New(1), [Write([1, 2]), ReadByte], Read(1, false));
    assert [Write([1, 2]), ReadByte] + [Read(1, false)] == [Write([1, 2]), ReadByte, Read(1, false)];
    AsleepForEver(Run(1, [Write([1, 2]), ReadByte, Read(1, false)]), more);
  }
}
