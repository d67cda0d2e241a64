/** The order in which a peer gets its packets, over all its streams: several connections in turn, and inbound
    handlers beside them.  The order is kept up to the first state in which two packets for the peer race, and from
    every such state a few steps lose it. */
module RouterPeers {
  import opened PacketMem
  import opened Router
  import opened RouterMemory
  import opened RouterTables
  import opened RouterSafety
  import opened RouterOrder

  /** Goroutine `w` is about to write the payload in its hand to this peer. */
  ghost predicate Holds(s: State, peer: PeerId, w: Worker) {
    && ChannelOf(s, w).Some? && s.chans[ChannelOf(s, w).value].peer == peer
    && match w
       case Conn(c) => c < |s.conns| && s.conns[c] == Running(Sending)
       case Handler(i) => i < |s.handlers| && s.handlers[i].drain.Sending?
       case _ => false
  }

  ghost predicate HasHandler(s: State, c: ChanId) {
    exists i :: 0 <= i < |s.handlers| && s.handlers[i].c == c
  }

  /** Somebody can still take from channel `c`: a handler that has it, or whoever finds it under its peer. */
  ghost predicate Drained(s: State, peer: PeerId, c: ChanId) {
    c < |s.chans| && s.chans[c].peer == peer && (HasHandler(s, c) || (peer in s.id && s.id[peer] == c))
  }

  /** What is at `x` can still be written to this peer. */
  ghost predicate Pends(s: State, peer: PeerId, x: Place) {
    match x
    case With(w) => Holds(s, peer, w)
    case In(Peer(c)) => Drained(s, peer, c)
    case _ => false
  }

  /** What is at `y` is behind what is at `x` in the same channel. */
  ghost predicate Queues(s: State, x: Place, y: Place) {
    x.With? && ChannelOf(s, x.w).Some? && y == In(Peer(ChannelOf(s, x.w).value))
  }

  /** Two packets for the peer wait in different places, neither behind the other: two goroutines are about to write
      one each, or one waits in a channel and the other in, or just out of, another channel of the peer. */
  ghost predicate Races(s: State, peer: PeerId, p: PayloadId, x: Place, p': PayloadId, y: Place) {
    && InFlight(s.mem, p, x) && InFlight(s.mem, p', y) && Pends(s, peer, x) && Pends(s, peer, y)
    && x != y && !Queues(s, x, y) && !Queues(s, y, x)
  }

  ghost predicate Racing(s: State, peer: PeerId) {
    exists p: PayloadId, x, p': PayloadId, y :: Races(s, peer, p, x, p', y)
  }

  // ----- without a race the order is kept

  /** A channel is empty while its connection has not been started. */
  ghost predicate UnstartedEmpty(s: State) {
    forall c :: 0 <= c < |s.conns| && s.conns[c].Unstarted? ==> Line(s.mem, Peer(c)) == []
  }

  /** What can still be written to the peer comes after what has been written to it. */
  ghost predicate PendingLater(s: State, peer: PeerId) {
    forall k, p: PayloadId, x ::
      0 <= k < |s.wire| && s.wire[k].peer == peer && InFlight(s.mem, p, x) && Pends(s, peer, x) ==>
        EntrySn(s.wire[k]) < SnOf(s.mem, p)
  }

  ghost predicate PeerInOrder(s: State, peer: PeerId) {
    forall j, k :: 0 <= j < k < |s.wire| && s.wire[j].peer == s.wire[k].peer == peer ==>
      EntrySn(s.wire[j]) < EntrySn(s.wire[k])
  }

  /** What is known of every reachable state. */
  ghost predicate Reachable(s: State) {
    Inv(s) && OrderInv(s) && UnstartedEmpty(s)
  }

  /** Only the router makes connections, and only it starts them. */
  lemma {:induction false} OtherConnsStay(s: State, a: Action)
    requires !a.StepConn? && !a.StepRouter?
    ensures Next(s, a).conns == s.conns
  {
  }

  lemma {:induction false} ConnMoves(s: State, c: ChanId, ok: bool)
    requires c < |s.conns| == |s.chans|
    ensures var t := DoConn(s, c, ok);
            && t.conns == s.conns[c := t.conns[c]] && (t.conns[c].Unstarted? <==> s.conns[c].Unstarted?)
            && (t.conns[c] == Running(Sending) && s.conns[c] != t.conns[c] ==> EffectOf(s, StepConn(c, ok)).Takes?)
  {
  }

  lemma {:induction false} UnstartedStays(s: State, a: Action, c: ChanId)
    requires TablesOk(s) && c < |Next(s, a).conns| && Next(s, a).conns[c].Unstarted?
    ensures |s.conns| <= c || s.conns[c].Unstarted?
  {
    match a {
      case StepConn(d, ok) => if d < |s.conns| { ConnMoves(s, d, ok); }
      case StepRouter(key) => LaunchStarts(s, key);
      case _ => OtherConnsStay(s, a);
    }
  }

  lemma {:induction false} UnstartedKept(s: State, a: Action)
    requires Inv(s) && UnstartedEmpty(s)
    ensures UnstartedEmpty(Next(s, a))
  {
    var t := Next(s, a);
    NextMem(s, a);
    forall c | 0 <= c < |t.conns| && t.conns[c].Unstarted? ensures Line(t.mem, Peer(c)) == [] {
      UnstartedStays(s, a, c);
      if c >= |s.conns| { NewLineIsEmpty(s, c); }
      else { assert ConnOk(s, c); }
      if EffectOf(s, a).Takes? { TakesFrom(s, a, EffectOf(s, a).q); }
    }
  }

  lemma {:induction false} NewLineIsEmpty(s: State, c: ChanId)
    requires Placed(s) && c >= |s.chans|
    ensures Line(s.mem, Peer(c)) == []
  {
    if Line(s.mem, Peer(c)) != [] {
      assert InFlight(s.mem, Line(s.mem, Peer(c))[0], In(Peer(c)));
    }
  }

  /** A goroutine that is about to write was so before, unless it has just taken the payload. */
  lemma {:induction false} ConnHeldBefore(s: State, a: Action, c: ChanId)
    requires TablesOk(s) && c < |Next(s, a).conns| && Next(s, a).conns[c] == Running(Sending)
    requires !(a.StepConn? && a.c == c && EffectOf(s, a).Takes?)
    ensures c < |s.conns| && s.conns[c] == Running(Sending)
  {
    match a {
      case StepConn(d, ok) => if d < |s.conns| { ConnMoves(s, d, ok); }
      case StepRouter(key) => LaunchStarts(s, key);
      case _ => OtherConnsStay(s, a);
    }
  }

  lemma {:induction false} OnlyInboundAdds(s: State, a: Action)
    requires !a.StepHandler?
    ensures var t := Next(s, a);
            t.handlers == s.handlers
            || (a.Inbound? && a.peer in s.id && t.handlers == s.handlers + [Handling(s.id[a.peer], Idle)])
  {
  }

  lemma {:induction false} HandlerMoves(s: State, i: nat, ok: bool)
    ensures var t := Next(s, StepHandler(i, ok));
            && |t.handlers| == |s.handlers|
            && (forall j :: 0 <= j < |s.handlers| && j != i ==> t.handlers[j] == s.handlers[j])
            && (i < |s.handlers| && t.handlers[i].drain.Sending? ==>
                  s.handlers[i].drain.Sending? || EffectOf(s, StepHandler(i, ok)).Takes?)
  {
  }

  lemma {:induction false} HandlerHeldBefore(s: State, a: Action, i: nat)
    requires i < |Next(s, a).handlers| && Next(s, a).handlers[i].drain.Sending?
    requires !(a.StepHandler? && a.i == i && EffectOf(s, a).Takes?)
    ensures i < |s.handlers| && s.handlers[i].drain.Sending?
  {
    if a.StepHandler? { HandlerMoves(s, a.i, a.ok); } else { OnlyInboundAdds(s, a); }
  }

  lemma {:induction false} HoldsBefore(s: State, a: Action, peer: PeerId, w: Worker)
    requires TablesOk(s) && Holds(Next(s, a), peer, w) && !(w == MoverOf(a) && EffectOf(s, a).Takes?)
    ensures Holds(s, peer, w)
  {
    match w {
      case Conn(c) => ConnHeldBefore(s, a, c);
      case Handler(i) => HandlerHeldBefore(s, a, i);
    }
    NextGrows(s, a);
    ChannelGrows(s, Next(s, a), w);
  }

  /** Who can take from a channel now could have taken from it, or found it, before: only the channel whose peer the
      router has just registered is new, and that one is empty. */
  lemma {:induction false} DrainedBefore(s: State, a: Action, peer: PeerId, c: ChanId)
    requires TablesOk(s) && Drained(Next(s, a), peer, c)
    ensures Drained(s, peer, c) || c >= |s.chans| || s.conns[c].Unstarted?
  {
    NextGrows(s, a);
    assert c < |s.chans| ==> s.chans[c] == Next(s, a).chans[..|s.chans|][c];
    if HasHandler(Next(s, a), c) { HandlersBefore(s, a, c); } else { IdsBefore(s, a, peer, c); }
  }

  /** A handler has its channel from the start, when it found it under its peer. */
  lemma {:induction false} HandlersBefore(s: State, a: Action, c: ChanId)
    requires TablesOk(s) && HasHandler(Next(s, a), c)
    ensures HasHandler(s, c) || (c < |s.chans| && s.chans[c].peer in s.id && s.id[s.chans[c].peer] == c)
  {
    var t := Next(s, a);
    NextGrows(s, a);
    var i :| 0 <= i < |t.handlers| && t.handlers[i].c == c;
    if a.StepHandler? { HandlerMoves(s, a.i, a.ok); } else { OnlyInboundAdds(s, a); }
    if i < |s.handlers| { assert s.handlers[i].c == c; }
  }

  lemma {:induction false} RouterIds(s: State, key: PeerId)
    ensures var t := DoRouter(s, key);
            t.id == s.id || (s.router.Register? && s.router.c < |s.chans|
                             && t.id == s.id[s.chans[s.router.c].peer := s.router.c])
  {
  }

  lemma {:induction false} ConnIds(s: State, c: ChanId, ok: bool)
    requires c < |s.conns| == |s.chans|
    ensures forall k :: k in DoConn(s, c, ok).id ==> k in s.id && DoConn(s, c, ok).id[k] == s.id[k]
  {
  }

  lemma {:induction false} OtherIdsStay(s: State, a: Action)
    requires !a.StepConn? && !a.StepRouter?
    ensures Next(s, a).id == s.id
  {
  }

  lemma {:induction false} IdsBefore(s: State, a: Action, peer: PeerId, c: ChanId)
    requires TablesOk(s) && peer in Next(s, a).id && Next(s, a).id[peer] == c
    ensures (peer in s.id && s.id[peer] == c) || c >= |s.chans| || s.conns[c].Unstarted?
  {
    match a {
      case StepConn(d, ok) => if d < |s.conns| { ConnIds(s, d, ok); }
      case StepRouter(key) => RouterIds(s, key);
      case _ => OtherIdsStay(s, a);
    }
  }

  /** A running connection is found under its peer. */
  lemma {:induction false} RunningIsDrained(s: State, c: ChanId)
    requires TablesOk(s) && c < |s.conns| && s.conns[c].Running?
    ensures c < |s.chans| && Drained(s, s.chans[c].peer, c)
  {
    assert ConnOk(s, c);
  }

  /** What can still be written to a peer could be so before, or was on its way to the peer's channel. */
  lemma {:induction false} PendsBefore(s: State, a: Action, peer: PeerId, p: PayloadId, x: Place)
    requires Reachable(s) && EffectMem(s, Next(s, a), a) && InFlight(Next(s, a).mem, p, x) && Pends(Next(s, a), peer, x)
    ensures !New(s, a, x)
    ensures Upstream(Origin(s, a, p, x)) > 0 || Pends(s, peer, Origin(s, a, p, x))
  {
    var t := Next(s, a);
    OriginOk(s, t, a, p, x);
    match x {
      case With(w) =>
        if w == MoverOf(a) && EffectOf(s, a).Takes? {
          TakesFrom(s, a, EffectOf(s, a).q);
          NextGrows(s, a);
          ChannelGrows(s, t, w);
          if w.Conn? { RunningIsDrained(s, w.c); } else { assert s.handlers[w.i].c == ChannelOf(s, w).value; }
        } else {
          HoldsBefore(s, a, peer, w);
          if EffectOf(s, a).Gives? { GivesTo(s, a, EffectOf(s, a).q); }
        }
      case In(q) =>
        DrainedBefore(s, a, peer, q.c);
        if EffectOf(s, a).Gives? { GivesTo(s, a, EffectOf(s, a).q); }
        if EffectOf(s, a).Takes? { TakesFrom(s, a, EffectOf(s, a).q); }
        if Origin(s, a, p, x) == x { LineIsStarted(s, p, q.c); }
    }
  }

  /** A channel with something in it has been made, and its connection started. */
  lemma {:induction false} LineIsStarted(s: State, p: PayloadId, c: ChanId)
    requires Reachable(s) && InFlight(s.mem, p, In(Peer(c)))
    ensures c < |s.chans| && !s.conns[c].Unstarted?
  {
    assert Fits(s, In(Peer(c)), DstOf(s.mem, p), DataOf(s.mem, p));
  }

  /** What has just been written goes before all that can still be written to the peer, if nothing raced with it. */
  lemma {:induction false} WrittenFirst(s: State, a: Action, e: Sent, p: PayloadId, x: Place)
    requires Inv(s) && Rising(s) && Writes(s, Next(s, a), a, e) && !Racing(s, e.peer)
    requires InFlight(s.mem, p, x) && Pends(s, e.peer, x) && x != With(MoverOf(a))
    ensures EntrySn(e) < SnOf(s.mem, p)
  {
    var w := MoverOf(a);
    WriterHolds(s, a, e);
    assert !Races(s, e.peer, Mine(s, w), With(w), p, x);
    assert Ahead(s, With(w), x);
    assert Precedes(s, Mine(s, w), With(w), p, x);
  }

  lemma {:induction false} WriterHolds(s: State, a: Action, e: Sent)
    requires Inv(s) && Writes(s, Next(s, a), a, e)
    ensures Holds(s, e.peer, MoverOf(a))
  {
    assert Next(s, a).wire != s.wire;
    match a {
      case StepConn(c, ok) => assert Next(s, a) == DoConn(s, c, ok);
      case StepHandler(i, ok) => assert Next(s, a) == DoHandler(s, i, ok);
      case _ =>
    }
  }

  lemma {:induction false} PendingAfter(s: State, a: Action, peer: PeerId, k: nat, p: PayloadId, x: Place)
    requires Reachable(s) && !Racing(s, peer) && PendingLater(s, peer) && EffectMem(s, Next(s, a), a)
    requires WritesAtMost(s, Next(s, a), a)
    requires k < |Next(s, a).wire| && Next(s, a).wire[k].peer == peer
    requires InFlight(Next(s, a).mem, p, x) && Pends(Next(s, a), peer, x)
    ensures EntrySn(Next(s, a).wire[k]) < SnOf(Next(s, a).mem, p)
  {
    var t, ox := Next(s, a), Origin(s, a, p, x);
    PendsBefore(s, a, peer, p, x);
    OriginOk(s, t, a, p, x);
    if k < |s.wire| {
      assert t.wire[k] == s.wire[k];
      assert Upstream(ox) > 0 ==> Follows(s, s.wire[k], ox);
    } else {
      assert x == With(MoverOf(a)) ==> Tried(t, x);
      WrittenFirst(s, a, t.wire[k], p, ox);
    }
  }

  lemma {:induction false} PendingKept(s: State, a: Action, peer: PeerId)
    requires Reachable(s) && !Racing(s, peer) && PendingLater(s, peer)
    ensures PendingLater(Next(s, a), peer)
  {
    var t := Next(s, a);
    NextMem(s, a);
    WireStep(s, a);
    forall k, p: PayloadId, x
      | 0 <= k < |t.wire| && t.wire[k].peer == peer && InFlight(t.mem, p, x) && Pends(t, peer, x)
      ensures EntrySn(t.wire[k]) < SnOf(t.mem, p)
    {
      PendingAfter(s, a, peer, k, p, x);
    }
  }

  lemma {:induction false} PeerOrderKept(s: State, a: Action, peer: PeerId)
    requires Inv(s) && PendingLater(s, peer) && PeerInOrder(s, peer)
    ensures PeerInOrder(Next(s, a), peer)
  {
    var t := Next(s, a);
    WireStep(s, a);
    if t.wire != s.wire && t.wire[|s.wire|].peer == peer {
      WriterHolds(s, a, t.wire[|s.wire|]);
    }
  }

  lemma {:induction false} ReachableKept(s: State, a: Action)
    requires Reachable(s)
    ensures Reachable(Next(s, a))
  {
    NextKeeps(s, a);
    OrderKept(s, a);
    UnstartedKept(s, a);
  }

  lemma {:induction false} RunReaches(cfg: Config, acts: seq<Action>)
    ensures Reachable(Run(cfg, acts)) && Run(cfg, acts).cfg == cfg
  {
    RunKeeps(cfg, acts);
    if acts != [] {
      RunReaches(cfg, acts[..|acts| - 1]);
      ReachableKept(Run(cfg, acts[..|acts| - 1]), acts[|acts| - 1]);
    }
  }

  lemma {:induction false} RunWithoutRace(cfg: Config, acts: seq<Action>, peer: PeerId)
    requires forall i :: 0 <= i < |acts| ==> !Racing(Run(cfg, acts[..i]), peer)
    ensures PendingLater(Run(cfg, acts), peer) && PeerInOrder(Run(cfg, acts), peer)
  {
    if acts != [] {
      var n := |acts| - 1;
      var s := Run(cfg, acts[..n]);
      forall i | 0 <= i < n ensures !Racing(Run(cfg, acts[..n][..i]), peer) {
        assert acts[..n][..i] == acts[..i];
      }
      RunWithoutRace(cfg, acts[..n], peer);
      RunReaches(cfg, acts[..n]);
      PendingKept(s, acts[n], peer);
      PeerOrderKept(s, acts[n], peer);
    }
  }

  /** A packet that was read for the configured address of this peer. */
  ghost predicate ReadFor(s: State, peer: PeerId, sn: nat) {
    sn < |s.tun| && peer in s.cfg.routes && s.tun[sn] == s.cfg.routes[peer]
  }

  /** What the peer has been sent is a subsequence of the packets read for it, in the order they were read. */
  ghost predicate InOrder(s: State, peer: PeerId) {
    && Increasing(WrittenTo(s.wire, peer))
    && forall i :: 0 <= i < |WrittenTo(s.wire, peer)| ==> ReadFor(s, peer, WrittenTo(s.wire, peer)[i])
  }

  lemma {:induction false} OrderedTo(s: State, peer: PeerId)
    requires WireOk(s) && PeerInOrder(s, peer)
    ensures InOrder(s, peer)
  {
    WrittenAt(s.wire, To(peer));
    forall i | 0 <= i < |WrittenTo(s.wire, peer)| ensures ReadFor(s, peer, WrittenTo(s.wire, peer)[i]) {
      var sn := WrittenTo(s.wire, peer)[i];
      assert IsEntry(s.wire, To(peer), sn);
      var k :| 0 <= k < |s.wire| && To(peer)(s.wire[k]) && EntrySn(s.wire[k]) == sn;
      assert EntryOk(s, s.wire[k]);
    }
  }

  /** A run that has met no state in which packets for the peer race has kept their order, with any number of
      connections in turn and of handlers. */
  lemma {:induction false} OrderKeptWithoutRaces(cfg: Config, acts: seq<Action>, peer: PeerId)
    requires forall i :: 0 <= i < |acts| ==> !Racing(Run(cfg, acts[..i]), peer)
    ensures InOrder(Run(cfg, acts), peer)
  {
    RunReaches(cfg, acts);
    RunWithoutRace(cfg, acts, peer);
    OrderedTo(Run(cfg, acts), peer);
  }

  // ----- connections alone do not race

  ghost predicate NoHandlerOf(s: State, peer: PeerId) {
    forall i :: 0 <= i < |s.handlers| ==> s.handlers[i].c < |s.chans| && s.chans[s.handlers[i].c].peer != peer
  }

  lemma {:induction false} NoHandlerKept(s: State, a: Action, peer: PeerId)
    requires TablesOk(s) && NoHandlerOf(s, peer) && a != Inbound(peer)
    ensures NoHandlerOf(Next(s, a), peer)
  {
    var t := Next(s, a);
    NextGrows(s, a);
    forall i | 0 <= i < |t.handlers| ensures t.handlers[i].c < |t.chans| && t.chans[t.handlers[i].c].peer != peer {
      if a.StepHandler? { HandlerMoves(s, a.i, a.ok); } else { OnlyInboundAdds(s, a); }
      var c := if i < |s.handlers| then s.handlers[i].c else s.id[a.peer];
      assert s.chans[c] == t.chans[..|s.chans|][c];
    }
  }

  lemma {:induction false} NoHandlerRuns(cfg: Config, acts: seq<Action>, peer: PeerId)
    requires forall k :: 0 <= k < |acts| ==> acts[k] != Inbound(peer)
    ensures NoHandlerOf(Run(cfg, acts), peer)
  {
    if acts != [] {
      RunKeeps(cfg, acts[..|acts| - 1]);
      NoHandlerRuns(cfg, acts[..|acts| - 1], peer);
      NoHandlerKept(Run(cfg, acts[..|acts| - 1]), acts[|acts| - 1], peer);
    }
  }

  /** Without a handler of the peer, all that can be written to it is in, or just out of, one channel. */
  lemma {:induction false} OneChannel(s: State, peer: PeerId, x: Place)
    requires TablesOk(s) && NoHandlerOf(s, peer) && Pends(s, peer, x)
    ensures peer in s.id && (x == In(Peer(s.id[peer])) || x == With(Conn(s.id[peer])))
  {
    if x.With? {
      assert s.handlers != [] ==> s.handlers[0].c < |s.chans|;
      assert x.w.Conn?;
      RunningIsDrained(s, x.w.c);
    }
  }

  lemma {:induction false} ConnectionsDoNotRace(s: State, peer: PeerId)
    requires TablesOk(s) && NoHandlerOf(s, peer)
    ensures !Racing(s, peer)
  {
    forall p: PayloadId, x, p': PayloadId, y ensures !Races(s, peer, p, x, p', y) {
      if Races(s, peer, p, x, p', y) {
        OneChannel(s, peer, x);
        OneChannel(s, peer, y);
      }
    }
  }

  /** While no handler drains a channel of the peer, what it gets, through however many connections in turn, is a
      subsequence of the packets read for its address, in the order they were read. */
  lemma {:induction false} PeersGetPacketsInOrder(cfg: Config, acts: seq<Action>, peer: PeerId)
    requires forall k :: 0 <= k < |acts| ==> acts[k] != Inbound(peer)
    ensures Run(cfg, acts).cfg == cfg && InOrder(Run(cfg, acts), peer)
  {
    RunKeeps(cfg, acts);
    forall i | 0 <= i < |acts| ensures !Racing(Run(cfg, acts[..i]), peer) {
      RunKeeps(cfg, acts[..i]);
      NoHandlerRuns(cfg, acts[..i], peer);
      ConnectionsDoNotRace(Run(cfg, acts[..i]), peer);
    }
    OrderKeptWithoutRaces(cfg, acts, peer);
  }
}
