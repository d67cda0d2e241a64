/** The order of TUN packets through the router: each stream is written in the order the packets were read, and no
    packet is written twice. */
module RouterOrder {
  import opened Basics
  import opened PacketMem
  import opened Router
  import opened RouterMemory
  import opened RouterTables
  import opened RouterSafety

  /** The place of a packet among those read. */
  function SnOf(m: Mem, p: PayloadId): nat {
    if DataOf(m, p).Tun? then DataOf(m, p).sn else 0
  }

  function EntrySn(e: Sent): nat {
    if e.what.Tun? then e.what.sn else 0
  }

  /** Packets from here on are not yet in a payload. */
  function Fresh(s: State): nat {
    if s.reader.Wrapping? && |s.tun| > 0 then |s.tun| - 1 else |s.tun|
  }

  /** How far a payload has still to go to its peer's channel; 0 once it is there, or is not on this way at all. */
  function Upstream(x: Place): nat {
    match x
    case With(TunReader) => 3
    case In(DevReader) => 2
    case With(RouteWriter) => 1
    case _ => 0
  }

  ghost predicate Downstream(x: Place) {
    match x
    case In(Peer(_)) => true
    case With(Conn(_)) => true
    case With(Handler(_)) => true
    case _ => false
  }

  /** Everything at `x` has left `y` behind. */
  ghost predicate Ahead(s: State, x: Place, y: Place) {
    || (Upstream(y) > 0 && Downstream(x))
    || (Upstream(y) > Upstream(x) > 0)
    || (x.With? && ChannelOf(s, x.w).Some? && y == In(Peer(ChannelOf(s, x.w).value)))
  }

  ghost predicate Earlier(m: Mem, q: Queue, p: PayloadId, p': PayloadId) {
    exists i, j :: 0 <= i < j < |Line(m, q)| && Line(m, q)[i] == p && Line(m, q)[j] == p'
  }

  /** Payload `p` at `x` goes before payload `p'` at `y`. */
  ghost predicate Precedes(s: State, p: PayloadId, x: Place, p': PayloadId, y: Place) {
    Ahead(s, x, y) || (x == y && x.In? && x.q != DevWriter && Earlier(s.mem, x.q, p, p'))
  }

  /** The payload in this worker's hand has been written, or its write has failed. */
  ghost predicate Tried(s: State, x: Place) {
    match x
    case With(Conn(c)) => c < |s.conns| && s.conns[c].Running? && s.conns[c].drain.Freeing?
    case With(Handler(i)) => i < |s.handlers| && s.handlers[i].drain.Freeing?
    case _ => false
  }

  /** What is at `x` was behind what entry `e` wrote. */
  ghost predicate Follows(s: State, e: Sent, x: Place) {
    || Upstream(x) > 0
    || (!Tried(s, x) && x == With(e.sender))
    || (ChannelOf(s, e.sender).Some? && x == In(Peer(ChannelOf(s, e.sender).value)))
  }

  // ----- the invariant

  ghost predicate Below(s: State) {
    && (forall p: PayloadId, x :: InFlight(s.mem, p, x) && DataOf(s.mem, p).Tun? ==> SnOf(s.mem, p) < Fresh(s))
    && (forall k :: 0 <= k < |s.wire| ==> EntrySn(s.wire[k]) < Fresh(s))
  }

  ghost predicate Rising(s: State) {
    forall p: PayloadId, x, p': PayloadId, y ::
      InFlight(s.mem, p, x) && InFlight(s.mem, p', y) && Precedes(s, p, x, p', y) ==> SnOf(s.mem, p) < SnOf(s.mem, p')
  }

  ghost predicate DifferentPackets(s: State) {
    forall p: PayloadId, x, p': PayloadId, y ::
      InFlight(s.mem, p, x) && InFlight(s.mem, p', y) && p != p' && DataOf(s.mem, p).Tun? ==>
        DataOf(s.mem, p) != DataOf(s.mem, p')
  }

  ghost predicate RestFollows(s: State) {
    forall k, p: PayloadId, x ::
      0 <= k < |s.wire| && InFlight(s.mem, p, x) && Follows(s, s.wire[k], x) ==> EntrySn(s.wire[k]) < SnOf(s.mem, p)
  }

  ghost predicate RestUnwritten(s: State) {
    forall k, p: PayloadId, x ::
      0 <= k < |s.wire| && InFlight(s.mem, p, x) && !Tried(s, x) ==> s.wire[k].what != DataOf(s.mem, p)
  }

  ghost predicate WireInOrder(s: State) {
    && (forall j, k :: 0 <= j < k < |s.wire| && s.wire[j].sender == s.wire[k].sender ==>
          EntrySn(s.wire[j]) < EntrySn(s.wire[k]))
    && (forall j, k :: 0 <= j < k < |s.wire| ==> s.wire[j].what != s.wire[k].what)
  }

  ghost predicate OrderInv(s: State) {
    Below(s) && Rising(s) && DifferentPackets(s) && RestFollows(s) && RestUnwritten(s) && WireInOrder(s)
  }

  // ----- where a payload in flight came from

  /** Where payload `p`, at `x` after the step, was before it. */
  ghost function Origin(s: State, a: Action, p: PayloadId, x: Place): Place {
    match EffectOf(s, a)
    case Takes(q) => if x == With(MoverOf(a)) then In(q) else x
    case Gives(q) => if x == In(q) && PayloadIn(HandOf(s.mem, MoverOf(a))) == Some(p) then With(MoverOf(a)) else x
    case _ => x
  }

  /** The step makes a payload in flight at `x`. */
  ghost predicate New(s: State, a: Action, x: Place) {
    (EffectOf(s, a).Wraps? || EffectOf(s, a).Attaches?) && x == With(MoverOf(a))
  }

  lemma {:induction false} OriginOk(s: State, t: State, a: Action, p: PayloadId, x: Place)
    requires EffectMem(s, t, a) && InFlight(t.mem, p, x) && !New(s, a, x)
    ensures InFlight(s.mem, p, Origin(s, a, p, x)) && Same(s.mem, t.mem, p)
  {
  }

  /** A payload just made is the last packet read, in the reader's hand, or came from the network. */
  lemma {:induction false} NewOk(s: State, a: Action, p: PayloadId, x: Place)
    requires Inv(s) && EffectMem(s, Next(s, a), a) && InFlight(Next(s, a).mem, p, x) && New(s, a, x)
    ensures var t := Next(s, a);
            if a.StepReader? then
              x == With(TunReader) && DataOf(t.mem, p) == Tun(Fresh(s)) && Fresh(t) == Fresh(s) + 1
            else DataOf(t.mem, p).Net? && Upstream(x) == 0 && !Downstream(x)
  {
  }

  lemma {:induction false} FreshGrows(s: State, a: Action)
    requires Inv(s)
    ensures Fresh(s) <= Fresh(Next(s, a))
  {
    NextGrows(s, a);
    OnlyTheReaderReads(s, a);
  }

  // ----- before and after a step

  /** A payload whose write has been tried is put back before its worker takes another. */
  lemma {:induction false} TriedStays(s: State, a: Action, w: Worker)
    requires TablesOk(s) && HandsOk(s) && Tried(s, With(w)) && Needs(Next(s, a), w) == Whole
    ensures Tried(Next(s, a), With(w))
  {
    var t := Next(s, a);
    match w {
      case Conn(c) =>
        if a.StepConn? && a.c == c { assert t == DoConn(s, c, a.ok); } else { ConnUntouched(s, a, c); }
      case Handler(i) =>
        if a.StepHandler? && a.i == i { assert t == DoHandler(s, i, a.ok); } else { HandlerUntouched(s, a, i); }
    }
  }

  lemma {:induction false} ConnUntouched(s: State, a: Action, c: ChanId)
    requires TablesOk(s) && c < |s.conns| && s.conns[c].Running? && !(a.StepConn? && a.c == c)
    ensures c < |Next(s, a).conns| && Next(s, a).conns[c] == s.conns[c]
  {
    if s.router.Launch? { assert s.conns[s.router.c].Unstarted?; }
  }

  lemma {:induction false} HandlerUntouched(s: State, a: Action, i: nat)
    requires i < |s.handlers| && !(a.StepHandler? && a.i == i)
    ensures i < |Next(s, a).handlers| && Next(s, a).handlers[i] == s.handlers[i]
  {
  }

  /** In flight with a drainer, a payload has a channel behind it. */
  lemma {:induction false} DrainerHasChannel(s: State, p: PayloadId, w: Worker)
    requires Placed(s) && InFlight(s.mem, p, With(w)) && (w.Conn? || w.Handler?)
    ensures ChannelOf(s, w).Some?
  {
    assert Fits(s, With(w), DstOf(s.mem, p), DataOf(s.mem, p));
  }

  /** A drainer takes from its own channel; the router takes from devReader. */
  lemma {:induction false} TakesFrom(s: State, a: Action, q: Queue)
    requires EffectOf(s, a) == Takes(q)
    ensures var w := MoverOf(a);
            || (w == RouteWriter && q == DevReader) || (w == TunWriter && q == DevWriter)
            || ((w.Conn? || w.Handler?) && ChannelOf(s, w).Some? && q == Peer(ChannelOf(s, w).value))
  {
  }

  lemma {:induction false} GivesTo(s: State, a: Action, q: Queue)
    requires EffectOf(s, a) == Gives(q)
    ensures var w := MoverOf(a);
            (w == TunReader && q == DevReader) || (w == RouteWriter && q.Peer?) || (w.Receiver? && q == DevWriter)
  {
  }

  lemma {:induction false} AheadOrigin(s: State, t: State, a: Action, p: PayloadId, x: Place, p': PayloadId, y: Place)
    requires Inv(s) && Grows(s, t) && EffectMem(s, t, a) && Ahead(t, x, y)
    requires InFlight(t.mem, p, x) && InFlight(t.mem, p', y) && !New(s, a, x) && !New(s, a, y)
    ensures Precedes(s, p, Origin(s, a, p, x), p', Origin(s, a, p', y))
  {
    OriginOk(s, t, a, p, x);
    OriginOk(s, t, a, p', y);
    var ox, oy := Origin(s, a, p, x), Origin(s, a, p', y);
    if ox.With? && (ox.w.Conn? || ox.w.Handler?) {
      DrainerHasChannel(s, p, ox.w);
      ChannelGrows(s, t, ox.w);
    }
    if EffectOf(s, a).Takes? { AheadTakes(s, t, a, p, x, p', y); }
    if EffectOf(s, a).Gives? { GivesTo(s, a, EffectOf(s, a).q); }
  }

  lemma {:induction false} AheadTakes(s: State, t: State, a: Action, p: PayloadId, x: Place, p': PayloadId, y: Place)
    requires Grows(s, t) && EffectMem(s, t, a) && Ahead(t, x, y) && EffectOf(s, a).Takes?
    requires InFlight(t.mem, p, x) && InFlight(t.mem, p', y)
    requires x.With? && (x.w.Conn? || x.w.Handler?) && x.w != MoverOf(a) ==> ChannelOf(s, x.w).Some?
    ensures Precedes(s, p, Origin(s, a, p, x), p', Origin(s, a, p', y))
  {
    var q, w := EffectOf(s, a).q, MoverOf(a);
    TakesFrom(s, a, q);
    if x.With? && ChannelOf(s, x.w).Some? { ChannelGrows(s, t, x.w); }
    if x == With(w) && y == In(q) { HeadIsEarlier(s.mem, t.mem, w, q, p'); }
  }

  /** The payload that a worker takes was before all that it leaves. */
  lemma {:induction false} HeadIsEarlier(m: Mem, t: Mem, w: Worker, q: Queue, p': PayloadId)
    requires TakesMem(m, t, w, q) && p' in Line(t, q)
    ensures Earlier(m, q, Line(m, q)[0], p')
  {
    var j :| 0 <= j < |Line(t, q)| && Line(t, q)[j] == p';
    assert Line(m, q)[j + 1] == p';
  }

  lemma {:induction false} EarlierOrigin(s: State, t: State, a: Action, p: PayloadId, q: Queue, p': PayloadId)
    requires Inv(s) && EffectMem(s, t, a) && Earlier(t.mem, q, p, p') && q != DevWriter
    ensures Precedes(s, p, Origin(s, a, p, In(q)), p', Origin(s, a, p', In(q)))
  {
    match EffectOf(s, a) {
      case Takes(r) => TailIsInOrder(s.mem, t.mem, MoverOf(a), r, q, p, p');
      case Gives(r) =>
        GivesTo(s, a, r);
        LastIsGiven(s.mem, t.mem, MoverOf(a), r, q, p, p');
      case _ =>
        var i, j :| 0 <= i < j < |Line(t.mem, q)| && Line(t.mem, q)[i] == p && Line(t.mem, q)[j] == p';
        assert Earlier(s.mem, q, p, p');
    }
  }

  /** What a worker leaves in a channel was in this order before. */
  lemma {:induction false} TailIsInOrder(m: Mem, t: Mem, w: Worker, r: Queue, q: Queue, p: PayloadId, p': PayloadId)
    requires TakesMem(m, t, w, r) && Earlier(t, q, p, p')
    ensures Earlier(m, q, p, p')
  {
    var i, j :| 0 <= i < j < |Line(t, q)| && Line(t, q)[i] == p && Line(t, q)[j] == p';
    if r == q { assert Line(m, q)[i + 1] == p && Line(m, q)[j + 1] == p'; }
  }

  /** What a worker gives to a channel goes after all that is in it. */
  lemma {:induction false} LastIsGiven(m: Mem, t: Mem, w: Worker, r: Queue, q: Queue, p: PayloadId, p': PayloadId)
    requires Owned(m) && GivesMem(m, t, w, r) && Earlier(t, q, p, p')
    ensures var p0 := HandOf(m, w).value.p;
            && p in Line(m, q) && p != p0
            && (if p' == p0 then r == q else Earlier(m, q, p, p'))
  {
    var i, j :| 0 <= i < j < |Line(t, q)| && Line(t, q)[i] == p && Line(t, q)[j] == p';
    var at, p0 :| Own(m, at) && p0 == HandOf(m, w).value.p;
    assert IsAt(m, p0, With(w)) && !IsAt(m, p0, In(q));
    assert Line(m, q)[i] == p;
    if j < |Line(m, q)| { assert Line(m, q)[j] == p'; }
  }

  /** What goes before after a step went before already. */
  lemma {:induction false} PrecedesOrigin(s: State, t: State, a: Action, p: PayloadId, x: Place, p': PayloadId,
                                          y: Place)
    requires Inv(s) && Grows(s, t) && EffectMem(s, t, a) && Precedes(t, p, x, p', y)
    requires InFlight(t.mem, p, x) && InFlight(t.mem, p', y) && !New(s, a, x) && !New(s, a, y)
    ensures Precedes(s, p, Origin(s, a, p, x), p', Origin(s, a, p', y))
  {
    if Ahead(t, x, y) { AheadOrigin(s, t, a, p, x, p', y); } else { EarlierOrigin(s, t, a, p, x.q, p'); }
  }

  /** What follows an entry after a step followed it already. */
  lemma {:induction false} FollowsOrigin(s: State, a: Action, e: Sent, p: PayloadId, x: Place)
    requires Inv(s) && EntryOk(s, e) && InFlight(Next(s, a).mem, p, x) && !New(s, a, x) && Follows(Next(s, a), e, x)
    ensures EffectMem(s, Next(s, a), a) ==> Follows(s, e, Origin(s, a, p, x))
  {
    var t, ox := Next(s, a), Origin(s, a, p, x);
    NextGrows(s, a);
    NextMem(s, a);
    OriginOk(s, t, a, p, x);
    ChannelGrows(s, t, e.sender);
    if ox.With? && Tried(s, ox) && ox == x {
      assert GripOf(HandOf(t.mem, x.w)) == Needs(t, x.w);
      TriedStays(s, a, x.w);
    }
    match EffectOf(s, a) {
      case Takes(q) => TakesFrom(s, a, q);
      case Gives(q) => GivesTo(s, a, q);
      case _ =>
    }
  }

  // ----- what a write adds

  /** The step writes entry `e`, with what is in its worker's hand. */
  ghost predicate Writes(s: State, t: State, a: Action, e: Sent) {
    var w := MoverOf(a);
    && t.wire == s.wire + [e] && EntryOk(s, e) && e.sender == w
    && EffectOf(s, a) == Quiet && InFlight(s.mem, Mine(s, w), With(w)) && e.what == DataOf(s.mem, Mine(s, w))
    && !Tried(s, With(w)) && Tried(t, With(w))
  }

  /** The step writes nothing, or its last entry. */
  ghost predicate WritesAtMost(s: State, t: State, a: Action) {
    t.wire == s.wire || (|t.wire| > 0 && Writes(s, t, a, t.wire[|t.wire| - 1]))
  }

  lemma {:induction false} ConnWrites(s: State, c: ChanId, ok: bool, e: Sent)
    requires Inv(s) && c < |s.conns| && DoConn(s, c, ok).wire == s.wire + [e] && EntryOk(s, e)
    ensures Writes(s, DoConn(s, c, ok), StepConn(c, ok), e)
  {
    assert GripOf(HandOf(s.mem, Conn(c))) == Needs(s, Conn(c));
    assert s.conns[c] == Running(Sending) && e == DoConn(s, c, ok).wire[|s.wire|];
  }

  lemma {:induction false} HandlerWrites(s: State, i: nat, ok: bool, e: Sent)
    requires Inv(s) && i < |s.handlers| && s.handlers[i].c < |s.chans|
    requires DoHandler(s, i, ok).wire == s.wire + [e] && EntryOk(s, e)
    ensures Writes(s, DoHandler(s, i, ok), StepHandler(i, ok), e)
  {
    assert GripOf(HandOf(s.mem, Handler(i))) == Needs(s, Handler(i));
    assert s.handlers[i].drain == Sending && e == DoHandler(s, i, ok).wire[|s.wire|];
  }

  /** A step writes nothing, or what is in its worker's hand. */
  lemma {:induction false} WireStep(s: State, a: Action)
    requires Inv(s)
    ensures WritesAtMost(s, Next(s, a), a)
  {
    var t := Next(s, a);
    WireGrows(s, a);
    if t.wire != s.wire {
      match a {
        case StepConn(c, ok) => ConnWrites(s, c, ok, t.wire[|t.wire| - 1]);
        case StepHandler(i, ok) => HandlerWrites(s, i, ok, t.wire[|t.wire| - 1]);
      }
    }
  }

  // ----- every part of the invariant is kept

  lemma {:induction false} BelowKept(s: State, a: Action)
    requires Inv(s) && Below(s)
    ensures Below(Next(s, a))
  {
    var t := Next(s, a);
    NextMem(s, a);
    FreshGrows(s, a);
    WireStep(s, a);
    forall p: PayloadId, x | InFlight(t.mem, p, x) && DataOf(t.mem, p).Tun? ensures SnOf(t.mem, p) < Fresh(t) {
      if New(s, a, x) { NewOk(s, a, p, x); } else { OriginOk(s, t, a, p, x); }
    }
  }

  lemma {:induction false} RisingKept(s: State, a: Action)
    requires Inv(s) && Inv(Next(s, a)) && Below(s) && Rising(s)
    ensures Rising(Next(s, a))
  {
    var t := Next(s, a);
    NextMem(s, a);
    NextGrows(s, a);
    forall p: PayloadId, x, p': PayloadId, y
      | InFlight(t.mem, p, x) && InFlight(t.mem, p', y) && Precedes(t, p, x, p', y)
      ensures SnOf(t.mem, p) < SnOf(t.mem, p')
    {
      RisesAfter(s, a, p, x, p', y);
    }
  }

  lemma {:induction false} RisesAfter(s: State, a: Action, p: PayloadId, x: Place, p': PayloadId, y: Place)
    requires Inv(s) && Inv(Next(s, a)) && Below(s) && Rising(s) && EffectMem(s, Next(s, a), a) && Grows(s, Next(s, a))
    requires InFlight(Next(s, a).mem, p, x) && InFlight(Next(s, a).mem, p', y) && Precedes(Next(s, a), p, x, p', y)
    ensures SnOf(Next(s, a).mem, p) < SnOf(Next(s, a).mem, p')
  {
    var t := Next(s, a);
    assert Fits(t, x, DstOf(t.mem, p), DataOf(t.mem, p)) && Fits(t, y, DstOf(t.mem, p'), DataOf(t.mem, p'));
    if New(s, a, x) { NewOk(s, a, p, x); } else { OriginOk(s, t, a, p, x); }
    if New(s, a, y) { NewOk(s, a, p', y); } else { OriginOk(s, t, a, p', y); }
    if !New(s, a, x) && !New(s, a, y) { PrecedesOrigin(s, t, a, p, x, p', y); }
  }

  lemma {:induction false} DifferentKept(s: State, a: Action)
    requires Inv(s) && Below(s) && DifferentPackets(s)
    ensures DifferentPackets(Next(s, a))
  {
    var t := Next(s, a);
    NextMem(s, a);
    forall p: PayloadId, x, p': PayloadId, y
      | InFlight(t.mem, p, x) && InFlight(t.mem, p', y) && p != p' && DataOf(t.mem, p).Tun?
      ensures DataOf(t.mem, p) != DataOf(t.mem, p')
    {
      if New(s, a, x) { NewOk(s, a, p, x); } else { OriginOk(s, t, a, p, x); }
      if New(s, a, y) { NewOk(s, a, p', y); } else { OriginOk(s, t, a, p', y); }
    }
  }

  lemma {:induction false} RestFollowsKept(s: State, a: Action)
    requires Inv(s) && Inv(Next(s, a)) && Below(s) && Rising(s) && RestFollows(s)
    ensures RestFollows(Next(s, a))
  {
    var t := Next(s, a);
    NextMem(s, a);
    WireStep(s, a);
    forall k, p: PayloadId, x | 0 <= k < |t.wire| && InFlight(t.mem, p, x) && Follows(t, t.wire[k], x)
      ensures EntrySn(t.wire[k]) < SnOf(t.mem, p)
    {
      FollowsAfter(s, a, k, p, x);
    }
  }

  lemma {:induction false} FollowsAfter(s: State, a: Action, k: nat, p: PayloadId, x: Place)
    requires Inv(s) && Inv(Next(s, a)) && Below(s) && Rising(s) && RestFollows(s) && EffectMem(s, Next(s, a), a)
    requires WritesAtMost(s, Next(s, a), a)
    requires k < |Next(s, a).wire| && InFlight(Next(s, a).mem, p, x) && Follows(Next(s, a), Next(s, a).wire[k], x)
    ensures EntrySn(Next(s, a).wire[k]) < SnOf(Next(s, a).mem, p)
  {
    var t := Next(s, a);
    if New(s, a, x) {
      assert EntryOk(t, t.wire[k]);
      NewFollows(s, a, t.wire[k], p, x);
    } else {
      OriginOk(s, t, a, p, x);
      if k < |s.wire| {
        assert t.wire[k] == s.wire[k] && EntryOk(s, s.wire[k]);
        FollowsOrigin(s, a, s.wire[k], p, x);
      } else {
        WrittenIsAhead(s, a, t.wire[k], p, x);
      }
    }
  }

  lemma {:induction false} NewFollows(s: State, a: Action, e: Sent, p: PayloadId, x: Place)
    requires Inv(s) && Below(s) && EffectMem(s, Next(s, a), a) && InFlight(Next(s, a).mem, p, x) && New(s, a, x)
    requires e in Next(s, a).wire && EntryOk(Next(s, a), e) && Follows(Next(s, a), e, x)
    ensures EntrySn(e) < SnOf(Next(s, a).mem, p)
  {
    NewOk(s, a, p, x);
    WireStep(s, a);
  }

  /** What has just been written was ahead of what follows it. */
  lemma {:induction false} WrittenIsAhead(s: State, a: Action, e: Sent, p: PayloadId, x: Place)
    requires Inv(s) && Rising(s) && Writes(s, Next(s, a), a, e)
    requires InFlight(s.mem, p, x) && Follows(Next(s, a), e, x)
    ensures EntrySn(e) < SnOf(s.mem, p)
  {
    var t, w := Next(s, a), MoverOf(a);
    NextGrows(s, a);
    ChannelGrows(s, t, w);
    assert Ahead(s, With(w), x);
    assert Precedes(s, Mine(s, w), With(w), p, x);
  }

  lemma {:induction false} UnwrittenKept(s: State, a: Action)
    requires Inv(s) && Below(s) && DifferentPackets(s) && RestUnwritten(s)
    ensures RestUnwritten(Next(s, a))
  {
    var t := Next(s, a);
    forall k, p: PayloadId, x | 0 <= k < |t.wire| && InFlight(t.mem, p, x) && !Tried(t, x)
      ensures t.wire[k].what != DataOf(t.mem, p)
    {
      UnwrittenAfter(s, a, t.wire[k], p, x);
    }
  }

  lemma {:induction false} UnwrittenAfter(s: State, a: Action, e: Sent, p: PayloadId, x: Place)
    requires Inv(s) && Below(s) && DifferentPackets(s) && RestUnwritten(s) && e in Next(s, a).wire
    requires InFlight(Next(s, a).mem, p, x) && !Tried(Next(s, a), x)
    ensures e.what != DataOf(Next(s, a).mem, p)
  {
    var t := Next(s, a);
    NextMem(s, a);
    WireStep(s, a);
    if New(s, a, x) { NewOk(s, a, p, x); }
    else {
      OriginOk(s, t, a, p, x);
      if Tried(s, Origin(s, a, p, x)) && Origin(s, a, p, x) == x {
        assert GripOf(HandOf(t.mem, x.w)) == Needs(t, x.w);
        TriedStays(s, a, x.w);
      }
    }
  }

  lemma {:induction false} WireInOrderKept(s: State, a: Action)
    requires Inv(s) && RestFollows(s) && RestUnwritten(s) && WireInOrder(s)
    ensures WireInOrder(Next(s, a))
  {
    var t := Next(s, a);
    NextGrows(s, a);
    WireStep(s, a);
    if t.wire != s.wire {
      var e := t.wire[|s.wire|];
      forall j | 0 <= j < |s.wire| && s.wire[j].sender == e.sender ensures EntrySn(s.wire[j]) < EntrySn(e) {
        assert Follows(s, s.wire[j], With(MoverOf(a)));
      }
    }
  }

  lemma {:induction false} OrderKept(s: State, a: Action)
    requires Inv(s) && OrderInv(s)
    ensures OrderInv(Next(s, a))
  {
    NextKeeps(s, a);
    BelowKept(s, a);
    RisingKept(s, a);
    DifferentKept(s, a);
    RestFollowsKept(s, a);
    UnwrittenKept(s, a);
    WireInOrderKept(s, a);
  }

  lemma {:induction false} RunInOrder(cfg: Config, acts: seq<Action>)
    ensures OrderInv(Run(cfg, acts))
  {
    if acts != [] {
      RunKeeps(cfg, acts[..|acts| - 1]);
      RunInOrder(cfg, acts[..|acts| - 1]);
      OrderKept(Run(cfg, acts[..|acts| - 1]), acts[|acts| - 1]);
    }
  }

  // ----- the theorems

  ghost predicate Increasing(s: seq<nat>) {
    forall i, j :: 0 <= i < j < |s| ==> s[i] < s[j]
  }

  /** The packets in those entries that `of` picks, in the order they were written. */
  function Written(wire: seq<Sent>, of: Sent -> bool): seq<nat> {
    if wire == [] then []
    else
      var e := wire[|wire| - 1];
      Written(wire[..|wire| - 1], of) + if of(e) then [EntrySn(e)] else []
  }

  function From(w: Worker): Sent -> bool {
    (e: Sent) => e.sender == w
  }

  function To(peer: PeerId): Sent -> bool {
    (e: Sent) => e.peer == peer
  }

  /** The packets that worker `w` wrote to its stream. */
  function WrittenBy(wire: seq<Sent>, w: Worker): seq<nat> {
    Written(wire, From(w))
  }

  /** The packets written to a peer, over all of its streams. */
  function WrittenTo(wire: seq<Sent>, peer: PeerId): seq<nat> {
    Written(wire, To(peer))
  }

  ghost predicate IsEntry(wire: seq<Sent>, of: Sent -> bool, sn: nat) {
    exists k :: 0 <= k < |wire| && of(wire[k]) && EntrySn(wire[k]) == sn
  }

  lemma {:induction false} WrittenAt(wire: seq<Sent>, of: Sent -> bool)
    requires forall j, k :: 0 <= j < k < |wire| && of(wire[j]) && of(wire[k]) ==> EntrySn(wire[j]) < EntrySn(wire[k])
    ensures Increasing(Written(wire, of))
    ensures forall i :: 0 <= i < |Written(wire, of)| ==> IsEntry(wire, of, Written(wire, of)[i])
  {
    if wire != [] {
      var front := wire[..|wire| - 1];
      WrittenAt(front, of);
      forall i | 0 <= i < |Written(wire, of)| ensures IsEntry(wire, of, Written(wire, of)[i]) {
        if i < |Written(front, of)| {
          assert IsEntry(front, of, Written(front, of)[i]);
          var k :| 0 <= k < |front| && of(front[k]) && EntrySn(front[k]) == Written(front, of)[i];
          assert wire[k] == front[k];
        }
      }
      forall i | 0 <= i < |Written(front, of)| && of(wire[|front|])
        ensures Written(front, of)[i] < EntrySn(wire[|front|])
      {
        assert IsEntry(front, of, Written(front, of)[i]);
      }
    }
  }

  /** Whatever else happens, each goroutine writes its stream in the order in which the packets were read. */
  lemma {:induction false} StreamsAreInOrder(cfg: Config, acts: seq<Action>, w: Worker)
    ensures Increasing(WrittenBy(Run(cfg, acts).wire, w))
  {
    RunInOrder(cfg, acts);
    WrittenAt(Run(cfg, acts).wire, From(w));
  }

  /** No packet is written twice, by any goroutines, to any peers. */
  lemma {:induction false} NeverWrittenTwice(cfg: Config, acts: seq<Action>, j: nat, k: nat)
    requires j < k < |Run(cfg, acts).wire|
    ensures var wire := Run(cfg, acts).wire;
            wire[j].what.Tun? && wire[k].what.Tun? && wire[j].what.sn != wire[k].what.sn
  {
    RunInOrder(cfg, acts);
    RunKeeps(cfg, acts);
    var s := Run(cfg, acts);
    assert EntryOk(s, s.wire[j]) && EntryOk(s, s.wire[k]);
  }
}
