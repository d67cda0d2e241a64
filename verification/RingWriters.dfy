/** What single writers can rely on: a sole writer's bytes are contiguous in the stream, and which writers can be told
    of an error although every byte is in. */
module RingWriters {
  import opened Basics
  import opened RingSpec
  import opened RingBlocking
  import opened RingStream

  predicate PutsIn(a: Action) {
    a.Write? || a.TryWrite? || a.WriteByte? || a.TryWriteByte?
  }

  predicate WaitsToWrite(c: Call) {
    c.Writing? || c.ByteWriting?
  }

  /** No call but `id` is waiting to write. */
  ghost predicate Sole(s: Ring, id: CallId) {
    forall j :: 0 <= j < |s.calls| && j != id ==> !WaitsToWrite(s.calls[j])
  }

  /** The call was made to write `p`. */
  predicate IsFor(c: Call, p: seq<Byte>) {
    match c
    case Writing(q, wrote, _) => q == p && wrote <= |p|
    case ByteWriting(b, _) => [b] == p
    case WriteDone(q, wrote, _) => q == p && wrote <= |p|
    case _ => false
  }

  /** How many bytes the call says are in. */
  function Count(c: Call): nat {
    match c
    case Writing(_, wrote, _) => wrote
    case WriteDone(_, wrote, _) => wrote
    case _ => 0
  }

  /** From `s` to `t` nothing has been put in but the next bytes of call `id`, which writes `p`. */
  ghost predicate Continues(s: Ring, t: Ring, id: CallId, p: seq<Byte>) {
    && id < |s.calls| <= |t.calls| && Sole(t, id)
    && IsFor(s.calls[id], p) && IsFor(t.calls[id], p) && Count(s.calls[id]) <= Count(t.calls[id])
    && t.log == s.log + Tag(id, p[Count(s.calls[id])..Count(t.calls[id])])
  }

  lemma {:induction false} ContinuesOn(s: Ring, t: Ring, u: Ring, id: CallId, p: seq<Byte>)
    requires Continues(s, t, id, p) && Continues(t, u, id, p)
    ensures Continues(s, u, id, p)
  {
    var i, j, k := Count(s.calls[id]), Count(t.calls[id]), Count(u.calls[id]);
    assert p[i..j] + p[j..k] == p[i..k];
    assert Tag(id, p[i..j]) + Tag(id, p[j..k]) == Tag(id, p[i..k]);
  }

  lemma {:induction false} ReadContinues(s: Ring, id: CallId, p: seq<Byte>, j: CallId, wrapped: bool)
    requires id < |s.calls| && j < |s.calls| && Sole(s, id) && IsFor(s.calls[id], p)
    requires s.calls[j].Reading? || s.calls[j].ByteReading?
    ensures Continues(s, DoResume(s, j, wrapped), id, p)
  {
    assert Tag(id, p[Count(s.calls[id])..Count(s.calls[id])]) == [];
  }

  lemma {:induction false} WriteContinues(s: Ring, id: CallId, p: seq<Byte>, wrote: nat)
    requires id < |s.calls| && Sole(s, id) && s.calls[id] == Writing(p, wrote, true) && wrote < |p|
    ensures Continues(s, DoWrite(s, id, p, wrote), id, p)
  {
  }

  lemma {:induction false} ResumeContinues(s: Ring, id: CallId, p: seq<Byte>, j: CallId, wrapped: bool)
    requires id < |s.calls| && j < |s.calls| && Sole(s, id) && IsFor(s.calls[id], p)
    ensures Continues(s, DoResume(s, j, wrapped), id, p)
  {
    match s.calls[j]
    case Reading(_, _) => ReadContinues(s, id, p, j, wrapped);
    case ByteReading(_) => ReadContinues(s, id, p, j, wrapped);
    case Writing(_, wrote, true) => if wrote < |p| { WriteContinues(s, id, p, wrote); }
    case ByteWriting(_, true) =>
    case _ => assert DoResume(s, j, wrapped) == s;
  }

  lemma {:induction false} NextContinues(s: Ring, a: Action, id: CallId, p: seq<Byte>)
    requires id < |s.calls| && Sole(s, id) && IsFor(s.calls[id], p) && !PutsIn(a)
    ensures Continues(s, Next(s, a), id, p)
  {
    match a
    case Read(_, _) =>
    case TryRead(_, _) =>
    case ReadByte =>
    case CloseWithError(_) =>
    case Resume(j, wrapped) => if j < |s.calls| { ResumeContinues(s, id, p, j, wrapped); }
  }

  /** While no other call waits to write and none is made, a call's bytes follow each other in the stream. */
  lemma {:induction false} RunContinues(s: Ring, acts: seq<Action>, id: CallId, p: seq<Byte>)
    requires id < |s.calls| && Sole(s, id) && IsFor(s.calls[id], p)
    requires forall i :: 0 <= i < |acts| ==> !PutsIn(acts[i])
    ensures Continues(s, RunFrom(s, acts), id, p)
  {
    if acts == [] {
      assert Tag(id, p[Count(s.calls[id])..Count(s.calls[id])]) == [];
    } else {
      var n := |acts| - 1;
      RunContinues(s, acts[..n], id, p);
      NextContinues(RunFrom(s, acts[..n]), acts[n], id, p);
      ContinuesOn(s, RunFrom(s, acts[..n]), RunFrom(s, acts), id, p);
    }
  }

  /** The first stretch of a write. */
  lemma {:induction false} StartContinues(s: Ring, w: Action)
    requires PutsIn(w) && forall j :: 0 <= j < |s.calls| ==> !WaitsToWrite(s.calls[j])
    ensures var t, id, p := Next(s, w), |s.calls|, Argument(w);
            && id < |t.calls| && Sole(t, id) && IsFor(t.calls[id], p)
            && t.log == s.log + Tag(id, p[..Count(t.calls[id])])
  {
  }

  /** A call that writes while no other is waiting to write or made, however often it waits itself, puts its bytes in
      the stream one after the other: all of them unless it reports an error or is still waiting. */
  lemma {:induction false} SoleWriterIsContiguous(size: nat, before: seq<Action>, w: Action, after: seq<Action>)
    requires 0 < size && PutsIn(w)
    requires forall j :: 0 <= j < |Run(size, before).calls| ==> !WaitsToWrite(Run(size, before).calls[j])
    requires forall i :: 0 <= i < |after| ==> !PutsIn(after[i])
    ensures var s, t := Run(size, before), Run(size, before + [w] + after);
            var id, p := |s.calls|, Argument(w);
            && id < |t.calls| && IsFor(t.calls[id], p)
            && BytesOf(t.log) == BytesOf(s.log) + p[..Count(t.calls[id])]
            && (forall i :: |s.log| <= i < |t.log| ==> t.log[i].0 == id)
            && (t.calls[id].WriteDone? && t.calls[id].e.None? ==> Count(t.calls[id]) == |p|)
  {
    var s := Run(size, before);
    var s1 := Next(s, w);
    var id, p := |s.calls|, Argument(w);
    StartContinues(s, w);
    RunContinues(s1, after, id, p);
    var t := RunFrom(s1, after);
    RunMore(New(size), before, w);
    RunJoins(New(size), before + [w], after);
    ContinuesFrom(s, s1, t, id, p);
    StreamIsFifo(size, before + [w] + after);
    assert Accounted(t.calls[id], From(t.log, id));
  }

  lemma {:induction false} ContinuesFrom(s: Ring, s1: Ring, t: Ring, id: CallId, p: seq<Byte>)
    requires id < |s1.calls| && IsFor(s1.calls[id], p) && s1.log == s.log + Tag(id, p[..Count(s1.calls[id])])
    requires Continues(s1, t, id, p)
    ensures BytesOf(t.log) == BytesOf(s.log) + p[..Count(t.calls[id])]
    ensures forall i :: |s.log| <= i < |t.log| ==> t.log[i].0 == id
  {
    var m, n := Count(s1.calls[id]), Count(t.calls[id]);
    assert Tag(id, p[..m]) + Tag(id, p[m..n]) == Tag(id, p[..n]);
    assert t.log == s.log + Tag(id, p[..n]);
  }

  // ----- errors for bytes that are in

  /** A write of something that has put in all of it and yet reports an error. */
  predicate Misreports(c: Call) {
    c.WriteDone? && c.p != [] && c.wrote == |c.p| && c.e.Some?
  }

  /** A woken writer gets the lock, there is room for all it has left, and meanwhile a final error has been stored. */
  predicate LateFinal(s: Ring, a: Action, id: CallId) {
    && a.Resume? && a.id == id && id < |s.calls| && Final(s.err)
    && match s.calls[id]
       case Writing(p, wrote, woken) => woken && wrote < |p| && |p| - wrote <= Room(s)
       case ByteWriting(_, woken) => woken && 0 < Room(s)
       case _ => false
  }

  /** In every step, exactly a late final error makes a write report an error for bytes that are all in. */
  lemma {:induction false} MisreportsExactly(s: Ring, a: Action, id: CallId)
    requires id < |Next(s, a).calls|
    ensures Misreports(Next(s, a).calls[id]) <==>
              (id < |s.calls| && Misreports(s.calls[id])) || LateFinal(s, a, id)
  {
    if a.Resume? {
      if a.id < |s.calls| { ResumeMisreports(s, a.id, a.wrapped, id); }
    } else if PutsIn(a) {
      StartMisreports(s, a, id);
    } else {
      OthersReport(s, a, id);
    }
  }

  lemma {:induction false} OthersReport(s: Ring, a: Action, id: CallId)
    requires !a.Resume? && !PutsIn(a) && id < |Next(s, a).calls|
    ensures Misreports(Next(s, a).calls[id]) <==> id < |s.calls| && Misreports(s.calls[id])
  {
  }

  lemma {:induction false} ResumeMisreports(s: Ring, i: CallId, wrapped: bool, id: CallId)
    requires i < |s.calls| && id < |s.calls|
    ensures |DoResume(s, i, wrapped).calls| == |s.calls|
    ensures Misreports(DoResume(s, i, wrapped).calls[id]) <==>
              Misreports(s.calls[id]) || LateFinal(s, Resume(i, wrapped), id)
  {
    var t := DoResume(s, i, wrapped);
    if id != i { assert t.calls[id] in {s.calls[id], WakeReader(s.calls[id]), WakeWriter(s.calls[id])}; }
  }

  lemma {:induction false} StartMisreports(s: Ring, a: Action, id: CallId)
    requires PutsIn(a) && id < |StartWrite(s, a).calls|
    ensures Misreports(StartWrite(s, a).calls[id]) <==> id < |s.calls| && Misreports(s.calls[id])
  {
  }

  /** The run that shows it: a second byte waits for room, a reader makes room, and the buffer is closed with an error
      before the writer gets the lock. */
  const LATE: seq<Action> :=
    [WriteByte(1), WriteByte(2), TryRead(1, false), CloseWithError(Some(Other(7))), Resume(1, false)]

  lemma {:induction false} SecondByteWaits()
    ensures Run(1, [WriteByte(1), WriteByte(2)]) ==
              Ring(1, [1], None, [WriteDone([1], 1, None), ByteWriting(2, false)], [(0, 1)], [])
  {
    var s1 := Next(New(1), WriteByte(1));
    assert s1 == Ring(1, [1], None, [WriteDone([1], 1, None)], [(0, 1)], []);
    RunMore(New(1), [], WriteByte(1));
    RunMore(New(1), [WriteByte(1)], WriteByte(2));
    assert [] + [WriteByte(1)] == [WriteByte(1)];
    assert [WriteByte(1)] + [WriteByte(2)] == [WriteByte(1), WriteByte(2)];
  }

  lemma {:induction false} ErrorComesFirst()
    ensures var t := Run(1, [WriteByte(1), WriteByte(2)] + [TryRead(1, false)] + [CloseWithError(Some(Other(7)))]);
            && |t.calls| == 3 && t.calls[1] == ByteWriting(2, true) && t.content == [] && t.size == 1
            && t.err == Some(Other(7))
  {
    var acts := [WriteByte(1), WriteByte(2)];
    SecondByteWaits();
    var s3 := Next(Run(1, acts), TryRead(1, false));
    assert |s3.calls| == 3 && s3.calls[1] == ByteWriting(2, true) && s3.content == [];
    RunMore(New(1), acts, TryRead(1, false));
    RunMore(New(1), acts + [TryRead(1, false)], CloseWithError(Some(Other(7))));
  }

  lemma {:induction false} WriteByteMisreports()
    ensures var t := Run(1, LATE);
            |t.calls| == 3 && t.calls[1] == WriteDone([2], 1, Some(Other(7))) && t.content == [2]
  {
    var acts := [WriteByte(1), WriteByte(2)] + [TryRead(1, false)] + [CloseWithError(Some(Other(7)))];
    ErrorComesFirst();
    RunMore(New(1), acts, Resume(1, false));
    assert LATE == acts + [Resume(1, false)];
  }
}
