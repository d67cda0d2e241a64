/** Every run of the concurrent map keeps its history in order: the steps, by what they do to the table. */
module MapLinear {
  import opened Basics
  import opened MapSpec
  import opened MapMachine
  import opened MapInvariant
  import opened MapHistory
  import opened MapHistorySteps

  // ----- the log of writes

  lemma {:induction false} LogSilent(h: History, g: History, s: State, t: State)
    requires LogOk(h, s) && |t.calls| == |s.calls| && Abs(t) == Abs(s)
    requires forall c :: 0 <= c < |s.calls| ==> SameJob(s.calls[c], t.calls[c])
    requires Grows(h, g, t) && g.writer == h.writer + [None] && g.lin == h.lin
    ensures LogOk(g, t)
  {
    forall c | c in g.lin ensures TakesEffect(g, t.calls, c) {
      assert TakesEffect(h, s.calls, c);
    }
  }

  ghost predicate SameJob(a: Call, b: Call) {
    a.kind == b.kind && a.key == b.key && a.val == b.val
  }

  lemma {:induction false} LogCommit(h: History, g: History, s: State, t: State, c: CallId)
    requires LogOk(h, s) && c < |t.calls| == |s.calls| && c !in h.lin
    requires forall d :: 0 <= d < |s.calls| ==> SameJob(s.calls[d], t.calls[d])
    requires Grows(h, g, t) && g.writer == h.writer + [Some(c)] && g.lin == h.lin[c := |h.writer|]
    requires var call := s.calls[c];
             && Writes(call.kind, Get(Abs(s), call.key))
             && Abs(t) == Apply(call.kind, call.key, call.val, c, Abs(s))
    ensures LogOk(g, t)
  {
    forall d | d in g.lin ensures TakesEffect(g, t.calls, d) {
      if d != c { assert TakesEffect(h, s.calls, d); }
    }
  }

  lemma {:induction false} TakesEffectStays(h: History, g: History, calls: seq<Call>, calls': seq<Call>, d: CallId)
    requires |h.maps| == |h.writer| + 1 && |g.maps| == |g.writer| + 1 && |h.maps| <= |g.maps|
    requires d in h.lin && d in g.lin && g.lin[d] == h.lin[d] && g.start == h.start
    requires d < |calls| == |calls'| == |h.start| && SameJob(calls[d], calls'[d])
    requires TakesEffect(h, calls, d)
    requires forall i :: 0 <= i < |h.maps| ==> g.maps[i] == h.maps[i]
    requires g.writer[h.lin[d]] == Some(d)
    ensures TakesEffect(g, calls', d)
  {
  }

  /** Handing the write at action `at` from `v` to `c` leaves writer and lin inverse to each other. */
  lemma {:induction false} StealKeepsInverse(w: seq<Option<CallId>>, lin: map<CallId, nat>, c: CallId, v: CallId)
    requires forall i :: 0 <= i < |w| && w[i].Some? ==> w[i].value in lin && lin[w[i].value] == i
    requires c !in lin && v in lin && lin[v] < |w| && w[lin[v]] == Some(v)
    ensures var w', lin' := w[lin[v] := Some(c)] + [None], (lin - {v})[c := lin[v]];
            forall i :: 0 <= i < |w'| && w'[i].Some? ==> w'[i].value in lin' && lin'[w'[i].value] == i
  {
    var w', lin' := w[lin[v] := Some(c)] + [None], (lin - {v})[c := lin[v]];
    forall i | 0 <= i < |w'| && w'[i].Some? ensures w'[i].value in lin' && lin'[w'[i].value] == i {
      if i < |w| && i != lin[v] { assert w'[i] == w[i] && w[i].value != v; }
    }
  }

  lemma {:induction false} StealKeepsSilence(maps: seq<Table>, w: seq<Option<CallId>>, last: Table, at: nat, c: CallId)
    requires |maps| == |w| + 1 && at < |w| && maps[|w|] == last
    requires forall i :: 0 <= i < |w| && w[i].None? ==> maps[i + 1] == maps[i]
    ensures var maps', w' := maps + [last], w[at := Some(c)] + [None];
            forall i :: 0 <= i < |w'| && w'[i].None? ==> maps'[i + 1] == maps'[i]
  {
    var maps', w' := maps + [last], w[at := Some(c)] + [None];
    forall i | 0 <= i < |w'| && w'[i].None? ensures maps'[i + 1] == maps'[i] {
      if i < |w| { assert w[i].None?; }
    }
  }

  lemma {:induction false} StolenEffect(h: History, g: History, s: State, t: State, c: CallId, v: CallId)
    requires |h.maps| == |h.writer| + 1 && c < |t.calls| == |s.calls| == |h.start| && v < |s.calls|
    requires v in h.lin && TakesEffect(h, s.calls, v)
    requires SameJob(s.calls[c], t.calls[c])
    requires s.calls[c].kind.CompareAndDelete? && s.calls[v].kind.LoadAndDelete?
    requires s.calls[c].key == s.calls[v].key && h.start[c] <= h.lin[v]
    requires Grows(h, g, t) && |g.maps| == |g.writer| + 1 && c in g.lin && g.lin[c] == h.lin[v]
    requires g.writer[h.lin[v]] == Some(c)
    ensures TakesEffect(g, t.calls, c)
  {
  }

  lemma {:induction false} StealSparesOthers(h: History, g: History, s: State, t: State, c: CallId, v: CallId,
                                             d: CallId)
    requires LogOk(h, s) && |t.calls| == |s.calls|
    requires v in h.lin && d in h.lin && d != v && d != c && SameJob(s.calls[d], t.calls[d])
    requires h.lin[v] < |h.writer| && h.writer[h.lin[v]] == Some(v)
    requires Grows(h, g, t) && g.writer == h.writer[h.lin[v] := Some(c)] + [None]
    requires g.lin == (h.lin - {v})[c := h.lin[v]]
    ensures TakesEffect(g, t.calls, d)
  {
    assert TakesEffect(h, s.calls, d);
    TakesEffectStays(h, g, s.calls, t.calls, d);
  }

  lemma {:induction false} LogSteal(h: History, g: History, s: State, t: State, c: CallId, v: CallId)
    requires LogOk(h, s) && c < |t.calls| == |s.calls| && c !in h.lin && v in h.lin
    requires forall d :: 0 <= d < |s.calls| ==> SameJob(s.calls[d], t.calls[d])
    requires s.calls[c].kind.CompareAndDelete? && s.calls[v].kind.LoadAndDelete?
    requires s.calls[c].key == s.calls[v].key && h.start[c] <= h.lin[v] && Abs(t) == Abs(s)
    requires Grows(h, g, t) && g.writer == h.writer[h.lin[v] := Some(c)] + [None]
    requires g.lin == (h.lin - {v})[c := h.lin[v]]
    ensures LogOk(g, t)
  {
    var at := h.lin[v];
    assert TakesEffect(h, s.calls, v);
    StealKeepsInverse(h.writer, h.lin, c, v);
    StolenEffect(h, g, s, t, c, v);
    forall d | d in g.lin && d != c ensures TakesEffect(g, t.calls, d) {
      StealSparesOthers(h, g, s, t, c, v, d);
    }
    StealKeepsSilence(h.maps, h.writer, Abs(t), at, c);
  }

  // ----- the proof rule for one step

  /** The step of `c` writes no entry that another LoadAndDelete has unlinked, save that of its victim. */
  ghost predicate SparesOthers(h: History, s: State, t: State, c: CallId)
    requires c < |s.calls|
  {
    forall e: EntryId :: Detached(s, e) && PtrOf(t, e) != PtrOf(s, e) ==>
      e in h.owner && (h.owner[e] == c || Victim(h, s, c) == Some(h.owner[e]))
  }

  lemma {:induction false} OthersTold(h: History, s: State, t: State, c: CallId, d: CallId)
    requires c < |s.calls| == |t.calls| == |h.start| && d < |s.calls| && d != c && t.calls[d] == s.calls[d]
    requires h.maps != [] && h.start[d] < |h.maps| && |s.entries| <= |t.entries|
    requires Local(s, d) && Told(h, s, d)
    requires Unlinks(s, c).Some? ==> InDirty(s, Unlinks(s, c).value)
    requires SparesOthers(h, s, t, c)
    requires forall e: EntryId :: e < |s.entries| ==> EntryRely(h, NoteStep(h, s, t, c), s, t, e)
    requires Some(d) != Victim(h, s, c)
    ensures Told(NoteStep(h, s, t, c), t, d)
  {
    var g := NoteStep(h, s, t, c);
    if Owned(s.calls[d].pc).Some? {
      var e := Owned(s.calls[d].pc).value;
      assert Detached(s, e) && h.owner[e] == d;
      assert PtrOf(t, e) == PtrOf(s, e);
    }
    ToldStable(h, g, s, t, d);
  }

  lemma {:induction false} UnlinksInDirty(s: State, c: CallId)
    requires Filed(s, DirtyTable(s)) && c < |s.calls|
    ensures Unlinks(s, c).Some? ==> InDirty(s, Unlinks(s, c).value)
  {
  }

  lemma {:induction false} StepEnds(h: History, s: State, t: State, c: CallId)
    requires Ended(h, s) && h.maps != [] && c < |s.calls| == |t.calls| && !Returned(s.calls[c].pc)
    requires forall d :: 0 <= d < |s.calls| && d != c ==> t.calls[d] == s.calls[d]
    ensures Ended(NoteStep(h, s, t, c), t)
  {
  }

  lemma {:induction false} StepTells(h: History, s: State, t: State, c: CallId)
    requires Inv(s) && HInv(h, s) && Rely(s, t, c)
    requires !Returned(s.calls[c].pc)
    requires SparesOthers(h, s, t, c)
    requires forall e: EntryId :: e < |s.entries| ==> EntryRely(h, NoteStep(h, s, t, c), s, t, e)
    requires LogOk(NoteStep(h, s, t, c), t)
    requires Claimed(NoteStep(h, s, t, c), t)
    requires Told(NoteStep(h, s, t, c), t, c)
    requires Victim(h, s, c).Some? ==>
               Victim(h, s, c).value < |t.calls| && Told(NoteStep(h, s, t, c), t, Victim(h, s, c).value)
    ensures HInv(NoteStep(h, s, t, c), t)
  {
    UnlinksInDirty(s, c);
    forall d | 0 <= d < |t.calls| ensures Told(NoteStep(h, s, t, c), t, d) {
      if d != c && Some(d) != Victim(h, s, c) {
        OthersTold(h, s, t, c, d);
      }
    }
    StepEnds(h, s, t, c);
  }
}
