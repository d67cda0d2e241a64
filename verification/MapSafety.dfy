/** What holds over every run of the concurrent map besides linearizability: no fault, no stale write, no value
    lost or taken twice, and what a Range reports. */
module MapSafety {
  import opened Basics
  import opened MapSpec
  import opened MapMachine
  import opened MapInvariant
  import opened MapSteps
  import opened MapHistory
  import opened MapHistorySteps
  import opened MapRuns

  // ----- no fault, and stale snapshots

  /** No write to a nil `dirty`, and no entry loop under the lock ever meets an expunged entry. */
  lemma {:induction false} NeverFaults(acts: seq<Action>, c: CallId)
    requires c < |Run(acts).calls|
    ensures !Run(acts).calls[c].pc.Faulted?
  {
    RunKeeps(acts);
    assert Local(Run(acts), c);
  }

  /** With the lock free, `amended` says whether `dirty` exists, and the tables agree entry by entry. */
  lemma {:induction false} TablesAgree(acts: seq<Action>, k: Key)
    requires Run(acts).mu.None?
    ensures var s := Run(acts);
            && (s.read.amended <==> s.dirty.Some?)
            && (k in s.read.m && PtrOf(s, s.read.m[k]).Expunged? ==> s.dirty.Some? && k !in s.dirty.value)
            && (k in s.read.m && !PtrOf(s, s.read.m[k]).Expunged? && s.dirty.Some? ==>
                  k in s.dirty.value && s.dirty.value[k] == s.read.m[k])
  {
    RunKeeps(acts);
    var s := Run(acts);
    if k in s.read.m && s.dirty.Some? { assert Agrees(s, k, {}); }
  }

  lemma {:induction false} NextPreserves(s: State, a: Action, e: EntryId)
    requires Inv(s)
    ensures Published(s, e) ==> Published(Next(s, a), e)
    ensures Gone(s, e) ==> Gone(Next(s, a), e)
  {
    match a
    case Invoke(_, _, _) =>
    case Step(c, pick) => if c < |s.calls| { StepCallKeeps(s, c, pick); }
  }

  /** An entry once in `read.m` is there for ever, or dropped and expunged for ever: no compare-and-swap
      through a stale snapshot can write into a dropped entry. */
  lemma {:induction false} StaleEntriesStayExpunged(acts: seq<Action>, i: nat, j: nat, e: EntryId)
    requires i <= j <= |acts|
    ensures InRead(Run(acts[..i]), e) ==> InRead(Run(acts[..j]), e) || Gone(Run(acts[..j]), e)
    ensures Gone(Run(acts[..i]), e) ==> Gone(Run(acts[..j]), e)
    decreases j
  {
    if i < j {
      StaleEntriesStayExpunged(acts, i, j - 1, e);
      RunKeeps(acts[..j - 1]);
      NextPreserves(Run(acts[..j - 1]), acts[j - 1], e);
      RunNext(acts, j - 1);
    }
  }

  lemma {:induction false} RunNext(acts: seq<Action>, i: nat)
    requires i < |acts|
    ensures Run(acts[..i + 1]) == Next(Run(acts[..i]), acts[i])
  {
    assert acts[..i + 1][..i] == acts[..i];
  }

  // ----- every stored value is accounted for

  /** A cell in the table was put there, once, by the call it is named after. */
  lemma {:induction false} CellOrigin(h: History, s: State, i: nat, k: Key, x: Cell)
    requires LogOk(h, s) && i < |h.maps| && Get(h.maps[i], k) == Some(x)
    ensures x.maker in h.lin && h.lin[x.maker] < i && x.maker < |s.calls|
    ensures s.calls[x.maker].key == k && s.calls[x.maker].val == x.val && !Deletes(s.calls[x.maker].kind)
    decreases i
  {
    if h.writer[i - 1].Some? {
      var c := h.writer[i - 1].value;
      assert TakesEffect(h, s.calls, c);
      if Get(h.maps[i - 1], k) == Some(x) { CellOrigin(h, s, i - 1, k, x); }
    } else {
      CellOrigin(h, s, i - 1, k, x);
    }
  }

  /** Only its maker brings a cell into the table. */
  lemma {:induction false} MakerBrings(h: History, s: State, i: nat, k: Key, x: Cell)
    requires LogOk(h, s) && i < |h.writer|
    requires Get(h.maps[i], k) != Some(x) && Get(h.maps[i + 1], k) == Some(x)
    ensures x.maker in h.lin && h.lin[x.maker] == i
  {
    assert h.writer[i].Some?;
    assert TakesEffect(h, s.calls, h.writer[i].value);
  }

  /** Where a cell first appears after `i`. */
  lemma {:induction false} FirstWith(maps: seq<Table>, i: nat, j: nat, k: Key, x: Cell) returns (m: nat)
    requires i <= j < |maps| && Get(maps[i], k) != Some(x) && Get(maps[j], k) == Some(x)
    ensures i <= m < j && Get(maps[m], k) != Some(x) && Get(maps[m + 1], k) == Some(x)
    decreases j
  {
    if Get(maps[j - 1], k) == Some(x) { m := FirstWith(maps, i, j - 1, k, x); } else { m := j - 1; }
  }

  /** Where a cell last appears before `j`. */
  lemma {:induction false} LastWith(maps: seq<Table>, i: nat, j: nat, k: Key, x: Cell) returns (m: nat)
    requires i <= j < |maps| && Get(maps[i], k) == Some(x) && Get(maps[j], k) != Some(x)
    ensures i <= m < j && Get(maps[m], k) == Some(x) && Get(maps[m + 1], k) != Some(x)
    decreases j
  {
    if Get(maps[j - 1], k) != Some(x) { m := LastWith(maps, i, j - 1, k, x); } else { m := j - 1; }
  }

  /** A cell missing at `i` and present at `j` was put there in between. */
  lemma {:induction false} CellArrives(h: History, s: State, i: nat, j: nat, k: Key, x: Cell)
    requires LogOk(h, s) && i <= j < |h.maps| && Get(h.maps[i], k) != Some(x) && Get(h.maps[j], k) == Some(x)
    ensures x.maker in h.lin && i <= h.lin[x.maker]
  {
    var m := FirstWith(h.maps, i, j, k, x);
    MakerBrings(h, s, m, k, x);
  }

  /** The call has returned cell `x`, having removed or replaced it. */
  predicate Took(call: Call, x: Cell) {
    call.pc == Done(Some(x)) && Writes(call.kind, Some(x))
  }

  lemma {:induction false} TookAtLin(h: History, s: State, c: CallId, x: Cell)
    requires HInv(h, s) && Inv(s) && c < |s.calls| && Took(s.calls[c], x)
    ensures c in h.lin && TakesEffect(h, s.calls, c)
    ensures Get(h.maps[h.lin[c]], s.calls[c].key) == Some(x)
    ensures Get(h.maps[h.lin[c] + 1], s.calls[c].key) != Some(x)
    ensures x.maker in h.lin && h.lin[x.maker] < h.lin[c]
    ensures x.maker < |s.calls| && s.calls[x.maker].key == s.calls[c].key
  {
    assert Told(h, s, c) && Local(s, c);
    assert TakesEffect(h, s.calls, c);
    CellOrigin(h, s, h.lin[c], s.calls[c].key, x);
  }

  lemma {:induction false} LaterTakerImpossible(h: History, s: State, c: CallId, d: CallId, x: Cell)
    requires HInv(h, s) && Inv(s) && c < |s.calls| && d < |s.calls|
    requires Took(s.calls[c], x) && Took(s.calls[d], x)
    requires c in h.lin && d in h.lin
    ensures h.lin[c] >= h.lin[d]
  {
    TookAtLin(h, s, c, x);
    TookAtLin(h, s, d, x);
    if h.lin[c] < h.lin[d] {
      CellArrives(h, s, h.lin[c] + 1, h.lin[d], s.calls[d].key, x);
    }
  }

  /** No stored value is reported as removed or replaced by two calls. */
  lemma {:induction false} TakenOnce(acts: seq<Action>, c: CallId, d: CallId, x: Cell)
    requires c < |Run(acts).calls| && d < |Run(acts).calls|
    requires Took(Run(acts).calls[c], x) && Took(Run(acts).calls[d], x)
    ensures c == d
  {
    var h, s := RunHistory(acts), Run(acts);
    RunTells(acts);
    TookAtLin(h, s, c, x);
    TookAtLin(h, s, d, x);
    LaterTakerImpossible(h, s, c, d, x);
    LaterTakerImpossible(h, s, d, c, x);
  }

  /** The call has returned, having stored its value. */
  predicate Stored(call: Call) {
    call.pc.Done? && Writes(call.kind, call.pc.r) && !Deletes(call.kind)
  }

  /** Action `i` was the write by which call `d` removed or replaced cell `x`; if the call has returned, it reported
      exactly this cell. */
  ghost predicate TookAt(acts: seq<Action>, i: nat, d: CallId, k: Key, x: Cell)
    requires i < |acts|
  {
    var calls := Run(acts).calls;
    && WroteAt(acts, i, calls, d) && calls[d].key == k && Get(Abs(Run(acts[..i])), k) == Some(x)
    && Get(Abs(Run(acts[..i + 1])), k) != Some(x) && (calls[d].pc.Done? ==> Took(calls[d], x))
  }

  /** A stored value is still in the table, or one action since was the write of a call under the same key that found
      the value and took it.  Nothing else, promotion and expunging included, discards a value. */
  lemma {:induction false} NothingLost(acts: seq<Action>, c: CallId)
    requires c < |Run(acts).calls| && Stored(Run(acts).calls[c])
    ensures var s, x := Run(acts), Cell(c, Run(acts).calls[c].val);
            || Get(Abs(s), s.calls[c].key) == Some(x)
            || exists i, d :: 0 <= i < |acts| && TookAt(acts, i, d, s.calls[c].key, x)
  {
    var h, s := RunHistory(acts), Run(acts);
    var k, x := s.calls[c].key, Cell(c, s.calls[c].val);
    RunTells(acts);
    assert Told(h, s, c);
    assert TakesEffect(h, s.calls, c);
    assert Get(h.maps[h.lin[c] + 1], k) == Some(x);
    if Get(Abs(s), k) != Some(x) {
      MapsCount(acts);
      var i := LastWith(h.maps, h.lin[c] + 1, |h.writer|, k, x);
      TakenAt(acts, i, k, x);
    }
  }

  /** The action after which a cell is gone is the write of the call that took it. */
  lemma {:induction false} TakenAt(acts: seq<Action>, i: nat, k: Key, x: Cell)
    requires i < |acts| == |RunHistory(acts).maps| - 1
    requires Get(RunHistory(acts).maps[i], k) == Some(x) && Get(RunHistory(acts).maps[i + 1], k) != Some(x)
    ensures exists d :: TookAt(acts, i, d, k, x)
  {
    var h, s := RunHistory(acts), Run(acts);
    RunTells(acts);
    MapsAre(acts, i);
    MapsAre(acts, i + 1);
    LoggedWrite(h, s, i);
    var d := h.writer[i].value;
    WriterInProgress(acts, i, d);
    TakerReports(h, s, d, x);
    assert TookAt(acts, i, d, k, x);
  }

  lemma {:induction false} TakerReports(h: History, s: State, d: CallId, x: Cell)
    requires HInv(h, s) && Inv(s) && d in h.lin && d < |s.calls| && h.lin[d] < |h.maps|
    requires Get(h.maps[h.lin[d]], s.calls[d].key) == Some(x)
    ensures Writes(s.calls[d].kind, Some(x)) && (s.calls[d].pc.Done? ==> Took(s.calls[d], x))
  {
    assert TakesEffect(h, s.calls, d);
    assert Told(h, s, d);
  }

  // ----- what calls in progress can see

  /** Call `c` had been made and had not returned after the first `i` actions. */
  ghost predicate InProgress(acts: seq<Action>, i: nat, c: CallId)
    requires i <= |acts|
  {
    c < |Run(acts[..i]).calls| && !Returned(Run(acts[..i]).calls[c].pc)
  }

  ghost predicate Gave(acts: seq<Action>, c: CallId, k: Key, r: Option<Cell>) {
    exists i :: 0 <= i <= |acts| && InProgress(acts, i, c) && Get(Abs(Run(acts[..i])), k) == r
  }

  lemma {:induction false} MapsAre(acts: seq<Action>, i: nat)
    requires i <= |acts|
    ensures |RunHistory(acts).maps| == |acts| + 1 && RunHistory(acts).maps[i] == Abs(Run(acts[..i]))
  {
    MapsCount(acts);
    if acts == [] {
    } else if i == |acts| {
      assert acts[..i] == acts;
    } else {
      assert acts[..|acts| - 1][..i] == acts[..i];
      MapsCount(acts[..|acts| - 1]);
      MapsAre(acts[..|acts| - 1], i);
    }
  }

  /** What the history has seen between a call's beginning and its return, the run gave it in progress. */
  lemma {:induction false} SeenIsGiven(acts: seq<Action>, c: CallId, k: Key, r: Option<Cell>)
    requires c < |Run(acts).calls| == |RunHistory(acts).start| && c in RunHistory(acts).end
    requires Seen(RunHistory(acts), RunHistory(acts).start[c], RunHistory(acts).end[c], k, r)
    ensures Gave(acts, c, k, r)
  {
    var h := RunHistory(acts);
    var i :| h.start[c] <= i < h.end[c] && i < |h.maps| && Get(h.maps[i], k) == r;
    MapsCount(acts);
    MapsAre(acts, i);
    if c >= |Run(acts[..i]).calls| {
      BeganAfter(acts, i, c);
    } else if Returned(Run(acts[..i]).calls[c].pc) {
      EndedBy(acts, i, c);
    }
    assert InProgress(acts, i, c);
  }

  /** A Range reports only values the table held while it was in progress, each key at most once, and it
      leaves out only keys that were missing at some time while it was in progress. */
  lemma {:induction false} RangeReports(acts: seq<Action>, c: CallId, k: Key)
    requires c < |Run(acts).calls| && Run(acts).calls[c].pc.RangeDone?
    ensures Gave(acts, c, k, Get(Run(acts).calls[c].pc.out, k))
  {
    var h, s := RunHistory(acts), Run(acts);
    RunTells(acts);
    assert Told(h, s, c);
    SeenIsGiven(acts, c, k, Get(s.calls[c].pc.out, k));
  }

  /** A Range during which the table does not change reports exactly the table. */
  lemma {:induction false} RangeAlone(acts: seq<Action>, c: CallId, t: Table)
    requires c < |Run(acts).calls| && Run(acts).calls[c].pc.RangeDone?
    requires forall i :: 0 <= i <= |acts| && InProgress(acts, i, c) ==> Abs(Run(acts[..i])) == t
    ensures Run(acts).calls[c].pc.out == t
  {
    var out := Run(acts).calls[c].pc.out;
    forall k ensures Get(out, k) == Get(t, k) {
      RangeReports(acts, c, k);
    }
    TablesEqual(out, t);
  }

  /** Every returned result is what the table gave in some state while the call was in progress. */
  lemma {:induction false} ResultsWereGiven(acts: seq<Action>, c: CallId)
    requires c < |Run(acts).calls| && Run(acts).calls[c].pc.Done?
    ensures Gave(acts, c, Run(acts).calls[c].key, Run(acts).calls[c].pc.r)
  {
    var h, s := RunHistory(acts), Run(acts);
    RunTells(acts);
    assert Told(h, s, c);
    if c in h.lin { assert TakesEffect(h, s.calls, c); }
    SeenIsGiven(acts, c, s.calls[c].key, s.calls[c].pc.r);
  }

  /** From `t` to `u` is exactly the change that the plain table makes for call `c`. */
  ghost predicate Performed(call: Call, c: CallId, t: Table, u: Table) {
    Writes(call.kind, Get(t, call.key)) && u == Apply(call.kind, call.key, call.val, c, t)
  }

  /** Call `c`, which `calls` holds, was in progress when action `i` made its write. */
  ghost predicate WroteAt(acts: seq<Action>, i: nat, calls: seq<Call>, c: CallId)
    requires i < |acts|
  {
    c < |calls| && InProgress(acts, i, c) && Performed(calls[c], c, Abs(Run(acts[..i])), Abs(Run(acts[..i + 1])))
  }

  lemma {:induction false} WriterInProgress(acts: seq<Action>, i: nat, c: CallId)
    requires i < |acts| && c in RunHistory(acts).lin && RunHistory(acts).lin[c] == i
    ensures InProgress(acts, i, c)
  {
    var h, s := RunHistory(acts), Run(acts);
    RunTells(acts);
    assert TakesEffect(h, s.calls, c) && Told(h, s, c);
    if c >= |Run(acts[..i]).calls| {
      BeganAfter(acts, i, c);
    } else if Returned(Run(acts[..i]).calls[c].pc) {
      EndedBy(acts, i, c);
    }
  }

  lemma {:induction false} LoggedWrite(h: History, s: State, i: nat)
    requires LogOk(h, s) && i < |h.writer|
    ensures match h.writer[i]
            case None => h.maps[i + 1] == h.maps[i]
            case Some(c) =>
              c in h.lin && h.lin[c] == i && c < |s.calls| && Performed(s.calls[c], c, h.maps[i], h.maps[i + 1])
  {
    if h.writer[i].Some? { assert TakesEffect(h, s.calls, h.writer[i].value); }
  }

  /** Every action leaves the table as it is, or makes the write of one call that is then in progress. */
  lemma {:induction false} EachActionIsOneWrite(acts: seq<Action>, i: nat) returns (writer: Option<CallId>)
    requires i < |acts|
    ensures match writer
            case None => Abs(Run(acts[..i + 1])) == Abs(Run(acts[..i]))
            case Some(c) => WroteAt(acts, i, Run(acts).calls, c)
  {
    var h, s := RunHistory(acts), Run(acts);
    RunTells(acts);
    MapsAre(acts, i);
    MapsAre(acts, i + 1);
    LoggedWrite(h, s, i);
    writer := h.writer[i];
    if writer.Some? { WriterInProgress(acts, i, writer.value); }
  }
}
