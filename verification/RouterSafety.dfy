/** What holds in every run of the packet router: single ownership of payloads and buffers, routing soundness, and
    exclusive connections. */
module RouterSafety {
  import opened Basics
  import opened PacketMem
  import opened Router
  import opened RouterMemory
  import opened RouterTables

  /** A packet that was read from the device, with the destination it was read with. */
  ghost predicate Packet(s: State, dst: Addr, what: Content) {
    what.Tun? && what.sn < |s.tun| && s.tun[what.sn] == dst
  }

  /** The channel that a worker drains. */
  function ChannelOf(s: State, w: Worker): Option<ChanId> {
    match w
    case Conn(c) => if c < |s.chans| then Some(c) else None
    case Handler(i) =>
      if i < |s.handlers| && s.handlers[i].c < |s.chans| then Some(s.handlers[i].c) else None
    case _ => None
  }

  /** What may be in flight at place `x`. */
  ghost predicate Fits(s: State, x: Place, dst: Addr, what: Content) {
    match x
    case In(DevReader) => Packet(s, dst, what)
    case In(DevWriter) => what.Net?
    case In(Peer(c)) => Packet(s, dst, what) && c < |s.chans| && s.chans[c].dst == dst
    case With(TunReader) => Packet(s, dst, what)
    case With(RouteWriter) => Packet(s, dst, what)
    case With(TunWriter) => what.Net?
    case With(Receiver(_)) => what.Net?
    case With(w) => Packet(s, dst, what) && ChannelOf(s, w).Some? && s.chans[ChannelOf(s, w).value].dst == dst
    case _ => true
  }

  ghost predicate Placed(s: State) {
    forall p: PayloadId, x :: InFlight(s.mem, p, x) ==> Fits(s, x, DstOf(s.mem, p), DataOf(s.mem, p))
  }

  /** The buffer about to be wrapped holds the last packet read. */
  ghost predicate WrapOk(s: State) {
    s.reader.Wrapping? ==>
      |s.tun| > 0 && RawContent(s.mem, TunReader) == Tun(|s.tun| - 1) && s.tun[|s.tun| - 1] == s.reader.dst
  }

  /** What was written to a stream was for the peer at its other end. */
  ghost predicate EntryOk(s: State, e: Sent) {
    && Packet(s, e.dst, e.what) && e.peer in s.cfg.routes && s.cfg.routes[e.peer] == e.dst
    && ChannelOf(s, e.sender).Some? && s.chans[ChannelOf(s, e.sender).value] == Chan(e.peer, e.dst)
  }

  ghost predicate WireOk(s: State) {
    && (forall k :: 0 <= k < |s.wire| ==> EntryOk(s, s.wire[k]))
    && (forall k :: 0 <= k < |s.out| ==> s.out[k].Net?)
  }

  ghost predicate Inv(s: State) {
    Owned(s.mem) && HandsOk(s) && TablesOk(s) && Placed(s) && WrapOk(s) && WireOk(s)
  }

  // ----- what is in flight still fits

  /** Packets read, channels made and handlers started are only added to. */
  ghost predicate Grows(s: State, t: State) {
    && t.cfg == s.cfg
    && |s.tun| <= |t.tun| && t.tun[..|s.tun|] == s.tun
    && |s.chans| <= |t.chans| && t.chans[..|s.chans|] == s.chans
    && |s.handlers| <= |t.handlers|
    && (forall i :: 0 <= i < |s.handlers| ==> t.handlers[i].c == s.handlers[i].c)
  }

  lemma {:induction false} ChannelGrows(s: State, t: State, w: Worker)
    requires Grows(s, t) && ChannelOf(s, w).Some?
    ensures ChannelOf(t, w) == ChannelOf(s, w)
    ensures t.chans[ChannelOf(s, w).value] == s.chans[ChannelOf(s, w).value]
  {
    assert forall c :: 0 <= c < |s.chans| ==> s.chans[c] == t.chans[..|s.chans|][c];
  }

  lemma {:induction false} FitsGrows(s: State, t: State, x: Place, dst: Addr, what: Content)
    requires Grows(s, t) && Fits(s, x, dst, what)
    ensures Fits(t, x, dst, what)
  {
    assert forall k :: 0 <= k < |s.tun| ==> s.tun[k] == t.tun[..|s.tun|][k];
    assert forall c :: 0 <= c < |s.chans| ==> s.chans[c] == t.chans[..|s.chans|][c];
  }

  lemma {:induction false} PlacedQuiet(s: State, t: State, w: Worker)
    requires Placed(s) && Grows(s, t) && QuietMem(s.mem, t.mem, w)
    ensures Placed(t)
  {
    forall p: PayloadId, x | InFlight(t.mem, p, x) ensures Fits(t, x, DstOf(t.mem, p), DataOf(t.mem, p)) {
      assert InFlight(s.mem, p, x) && Same(s.mem, t.mem, p);
      FitsGrows(s, t, x, DstOf(s.mem, p), DataOf(s.mem, p));
    }
  }

  lemma {:induction false} PlacedTakes(s: State, t: State, w: Worker, q: Queue)
    requires Placed(s) && Grows(s, t) && TakesMem(s.mem, t.mem, w, q)
    requires forall d, e :: Fits(t, In(q), d, e) ==> Fits(t, With(w), d, e)
    ensures Placed(t)
  {
    forall p: PayloadId, x | InFlight(t.mem, p, x) ensures Fits(t, x, DstOf(t.mem, p), DataOf(t.mem, p)) {
      var y := if x == With(w) then In(q) else x;
      assert InFlight(s.mem, p, y) && Same(s.mem, t.mem, p);
      FitsGrows(s, t, y, DstOf(s.mem, p), DataOf(s.mem, p));
    }
  }

  lemma {:induction false} PlacedGives(s: State, t: State, w: Worker, q: Queue)
    requires Placed(s) && Grows(s, t) && GivesMem(s.mem, t.mem, w, q)
    requires var p := HandOf(s.mem, w).value.p;
             Fits(t, With(w), DstOf(s.mem, p), DataOf(s.mem, p)) ==> Fits(t, In(q), DstOf(s.mem, p), DataOf(s.mem, p))
    ensures Placed(t)
  {
    var p0 := HandOf(s.mem, w).value.p;
    forall p: PayloadId, x | InFlight(t.mem, p, x) ensures Fits(t, x, DstOf(t.mem, p), DataOf(t.mem, p)) {
      var y := if x == In(q) && p == p0 then With(w) else x;
      assert InFlight(s.mem, p, y) && Same(s.mem, t.mem, p);
      FitsGrows(s, t, y, DstOf(s.mem, p), DataOf(s.mem, p));
    }
  }

  lemma {:induction false} PlacedMakes(s: State, t: State, w: Worker, what: Content)
    requires Placed(s) && Grows(s, t) && MakesMem(s.mem, t.mem, w, what)
    requires Fits(t, With(w), DstOf(t.mem, HandOf(t.mem, w).value.p), what)
    ensures Placed(t)
  {
    forall p: PayloadId, x | InFlight(t.mem, p, x) ensures Fits(t, x, DstOf(t.mem, p), DataOf(t.mem, p)) {
      if x != With(w) {
        assert InFlight(s.mem, p, x) && Same(s.mem, t.mem, p);
        FitsGrows(s, t, x, DstOf(s.mem, p), DataOf(s.mem, p));
      }
    }
  }

  // ----- the parts of the invariant, for every step

  lemma {:induction false} NextGrows(s: State, a: Action)
    ensures Grows(s, Next(s, a))
  {
    match a {
      case StepReader(packet, pick) => assert Grows(s, DoReader(s, packet, pick));
      case StepRouter(key) => assert Grows(s, DoRouter(s, key));
      case StepWriter => assert Grows(s, DoWriter(s));
      case StepConn(c, ok) => ConnGrows(s, c, ok);
      case StepHandler(i, ok) => HandlerGrows(s, i, ok);
      case StepReceiver(i, ok, pick) => ReceiverGrows(s, i, ok, pick);
      case Inbound(peer) => assert Grows(s, DoInbound(s, peer));
    }
  }

  lemma {:induction false} ConnGrows(s: State, c: ChanId, ok: bool)
    ensures Grows(s, Next(s, StepConn(c, ok)))
  {
  }

  lemma {:induction false} HandlerGrows(s: State, i: nat, ok: bool)
    ensures Grows(s, Next(s, StepHandler(i, ok)))
  {
  }

  lemma {:induction false} ReceiverGrows(s: State, i: nat, ok: bool, pick: nat)
    ensures Grows(s, Next(s, StepReceiver(i, ok, pick)))
  {
  }

  /** The device is read, and packets counted, by its reader alone. */
  lemma {:induction false} OnlyTheReaderReads(s: State, a: Action)
    ensures !a.StepReader? ==> Next(s, a).reader == s.reader && Next(s, a).tun == s.tun
    ensures a.StepReader? && s.reader.Wrapping? ==> Next(s, a).tun == s.tun
  {
  }

  /** What a worker carries is not touched by the steps of others. */
  lemma {:induction false} CarriedStays(s: State, t: State, a: Action, v: Worker, p: PayloadId)
    requires EffectMem(s, t, a) && v != MoverOf(a) && HandOf(s.mem, v) == Some(Carry(p))
    ensures HandOf(t.mem, v) == Some(Carry(p)) && Same(s.mem, t.mem, p)
  {
    assert InFlight(t.mem, p, With(v));
  }

  lemma {:induction false} RouterDstStays(s: State, a: Action)
    requires Owned(s.mem) && HandsOk(s) && TablesOk(s) && !a.StepRouter? && Placing(s)
    ensures RouterDst(Next(s, a)) == RouterDst(s)
  {
    assert GripOf(HandOf(s.mem, RouteWriter)) == Needs(s, RouteWriter);
    if a.Inbound? {
      assert DoInbound(s, a.peer).mem == s.mem;
    } else {
      NextMem(s, a);
      CarriedStays(s, Next(s, a), a, RouteWriter, HandOf(s.mem, RouteWriter).value.p);
    }
  }

  lemma {:induction false} NextTables(s: State, a: Action)
    requires Owned(s.mem) && HandsOk(s) && TablesOk(s)
    ensures TablesOk(Next(s, a))
  {
    if !a.StepRouter? && Placing(s) { RouterDstStays(s, a); }
    match a {
      case StepRouter(key) => RouterStepTables(s, key);
      case StepConn(c, ok) => if c < |s.conns| { ConnStepTables(s, c, ok); }
      case Inbound(peer) => InboundTables(s, peer);
      case _ => OtherTables(s, a); OtherStepTables(s, Next(s, a));
    }
  }

  lemma {:induction false} OtherTables(s: State, a: Action)
    requires !a.StepRouter? && !a.StepConn? && !a.Inbound?
    ensures SameTables(s, Next(s, a))
  {
  }

  lemma {:induction false} ConnStepTables(s: State, c: ChanId, ok: bool)
    requires TablesOk(s) && c < |s.conns| && (Placing(s) ==> RouterDst(DoConn(s, c, ok)) == RouterDst(s))
    ensures TablesOk(DoConn(s, c, ok))
  {
    match s.conns[c] {
      case DeleteAddr => DeleteAddrTables(s, c, ok);
      case DeleteId => DeleteIdTables(s, c, ok);
      case Unstarted =>
      case Dead =>
      case _ => ConnMovesTables(s, DoConn(s, c, ok), c);
    }
  }

  lemma {:induction false} RouterStepTables(s: State, key: PeerId)
    requires TablesOk(s)
    ensures TablesOk(DoRouter(s, key))
  {
    if s.router.Dial? { DialTables(s, key); }
    else if s.router.Register? { RegisterTables(s, key); }
    else if s.router.Launch? { LaunchTables(s, key); }
    else if (s.router.Route? || s.router.Search?) && !DoRouter(s, key).router.Receive? { LookupTables(s, key); }
    else { OutsideShape(s, key); RouterOutsideTables(s, DoRouter(s, key)); }
  }

  lemma {:induction false} OutsideShape(s: State, key: PeerId)
    requires !s.router.Dial? && !s.router.Register? && !s.router.Launch?
    requires s.router.Route? || s.router.Search? ==> DoRouter(s, key).router.Receive?
    ensures var t := DoRouter(s, key);
            t == s.(router := t.router, mem := t.mem) && t.router in {Receive, Route, RouterFree, RouterPut}
  {
  }

  /** What may be at place `x` may be at place `y`. */
  ghost predicate MayMove(s: State, x: Place, y: Place) {
    forall d, e :: Fits(s, x, d, e) ==> Fits(s, y, d, e)
  }

  /** What a step moves may be where it is moved to. */
  ghost predicate EffectFits(s: State, t: State, a: Action) {
    var w := MoverOf(a);
    match EffectOf(s, a)
    case Quiet => true
    case Takes(q) => MayMove(t, In(q), With(w))
    case Gives(q) => MayMove(t, With(w), In(q)) || (q.Peer? && q.c < |t.chans| && t.chans[q.c].dst == RouterDst(s))
    case Wraps => s.reader.Wrapping? && Fits(t, With(w), s.reader.dst, RawContent(s.mem, w))
    case Attaches => w.Receiver?
  }

  lemma {:induction false} NextFits(s: State, a: Action)
    requires TablesOk(s) && WrapOk(s)
    ensures EffectFits(s, Next(s, a), a)
  {
    NextGrows(s, a);
    OnlyTheReaderReads(s, a);
  }

  lemma {:induction false} NextPlaced(s: State, a: Action)
    requires Inv(s)
    ensures Placed(Next(s, a))
  {
    NextMem(s, a);
    NextGrows(s, a);
    NextFits(s, a);
    EffectPlaced(s, Next(s, a), a);
  }

  lemma {:induction false} EffectPlaced(s: State, t: State, a: Action)
    requires Placed(s) && Grows(s, t) && EffectMem(s, t, a) && EffectFits(s, t, a)
    ensures Placed(t)
  {
    var w := MoverOf(a);
    match EffectOf(s, a) {
      case Quiet => PlacedQuiet(s, t, w);
      case Takes(q) => PlacedTakes(s, t, w, q);
      case Gives(q) => PlacedGives(s, t, w, q);
      case Wraps => PlacedMakes(s, t, w, RawContent(s.mem, w));
      case Attaches => PlacedMakes(s, t, w, Net(a.i, s.heard));
    }
  }

  lemma {:induction false} ReaderWrap(s: State, packet: Packet, pick: nat)
    requires Owned(s.mem) && HandsOk(s) && WrapOk(s)
    ensures WrapOk(DoReader(s, packet, pick))
  {
    if s.reader.Scan? {
      var at :| Own(s.mem, at);
      assert GripOf(HandOf(s.mem, TunReader)) == Needs(s, TunReader);
      FillOwns(s.mem, at, TunReader, Tun(|s.tun|));
    }
  }

  lemma {:induction false} NextWrap(s: State, a: Action)
    requires Owned(s.mem) && HandsOk(s) && TablesOk(s) && WrapOk(s)
    ensures WrapOk(Next(s, a))
  {
    if a.StepReader? {
      ReaderWrap(s, a.packet, a.pick);
    } else {
      NextMem(s, a);
      OnlyTheReaderReads(s, a);
      if a.Inbound? { assert Next(s, a).mem == s.mem; }
    }
  }

  /** What a drain loop is about to write is what it may write. */
  lemma {:induction false} SendingOk(s: State, w: Worker, c: ChanId)
    requires Inv(s) && ChannelOf(s, w) == Some(c)
    requires GripOf(HandOf(s.mem, w)) == Whole
    ensures EntryOk(s, Sent(w, s.chans[c].peer, DstOf(s.mem, Mine(s, w)), DataOf(s.mem, Mine(s, w))))
  {
    assert InFlight(s.mem, Mine(s, w), With(w));
    assert ConnOk(s, c);
  }

  /** At most one payload more on the streams, and that one is for the peer at its other end. */
  ghost predicate WireAdds(s: State, wire: seq<Sent>) {
    wire == s.wire || (|wire| == |s.wire| + 1 && wire == s.wire + [wire[|s.wire|]] && EntryOk(s, wire[|s.wire|]))
  }

  lemma {:induction false} WireGrows(s: State, a: Action)
    requires Inv(s)
    ensures WireAdds(s, Next(s, a).wire)
  {
    var w := MoverOf(a);
    assert GripOf(HandOf(s.mem, w)) == Needs(s, w);
    match a {
      case StepConn(c, ok) => if c < |s.conns| && s.conns[c] == Running(Sending) { SendingOk(s, w, c); }
      case StepHandler(i, ok) =>
        if i < |s.handlers| && s.handlers[i].drain == Sending { SendingOk(s, w, s.handlers[i].c); }
      case _ => assert Next(s, a).wire == s.wire;
    }
  }

  /** At most one payload more at the device, and that one came from the network. */
  ghost predicate OutAdds(s: State, out: seq<Content>) {
    out == s.out || (|out| == |s.out| + 1 && out == s.out + [out[|s.out|]] && out[|s.out|].Net?)
  }

  lemma {:induction false} OutGrows(s: State, a: Action)
    requires Inv(s)
    ensures OutAdds(s, Next(s, a).out)
  {
    if a.StepWriter? && s.writer.Writing? {
      assert GripOf(HandOf(s.mem, TunWriter)) == Needs(s, TunWriter);
      assert InFlight(s.mem, Mine(s, TunWriter), With(TunWriter));
    } else {
      assert Next(s, a).out == s.out;
    }
  }

  lemma {:induction false} NextWire(s: State, a: Action)
    requires Inv(s)
    ensures WireOk(Next(s, a))
  {
    var t := Next(s, a);
    NextGrows(s, a);
    WireGrows(s, a);
    OutGrows(s, a);
    forall k | 0 <= k < |t.wire| ensures EntryOk(t, t.wire[k]) {
      EntryGrows(s, t, t.wire[k]);
    }
  }

  lemma {:induction false} EntryGrows(s: State, t: State, e: Sent)
    requires Grows(s, t) && EntryOk(s, e)
    ensures EntryOk(t, e)
  {
    ChannelGrows(s, t, e.sender);
    FitsGrows(s, t, With(TunReader), e.dst, e.what);
  }

  /** Every step keeps the invariant. */
  lemma {:induction false} NextKeeps(s: State, a: Action)
    requires Inv(s)
    ensures Inv(Next(s, a))
  {
    NextMem(s, a);
    NextTables(s, a);
    NextPlaced(s, a);
    NextWrap(s, a);
    NextWire(s, a);
  }

  lemma {:induction false} RunKeeps(cfg: Config, acts: seq<Action>)
    ensures Inv(Run(cfg, acts)) && Run(cfg, acts).cfg == cfg
  {
    if acts == [] {
      assert Own(EMPTY, Places([], []));
    } else {
      var s := Run(cfg, acts[..|acts| - 1]);
      RunKeeps(cfg, acts[..|acts| - 1]);
      NextKeeps(s, acts[|acts| - 1]);
      NextGrows(s, acts[|acts| - 1]);
    }
  }

  // ----- the theorems

  /** Each payload is in at most one place, once: the pool, a channel or a worker's hand. */
  ghost predicate InOnePlace(m: Mem) {
    && (forall p: PayloadId, x, y :: IsAt(m, p, x) && IsAt(m, p, y) ==> x == y)
    && (forall q :: NoDuplicates(Line(m, q)))
  }

  /** Payloads in flight have different buffers, none of which is in the pool or loose in a hand. */
  ghost predicate OwnBuffers(m: Mem) {
    && (forall p: PayloadId, x, p': PayloadId, x' :: InFlight(m, p, x) && InFlight(m, p', x') && p != p' ==>
          BufferOf(m, p) != BufferOf(m, p'))
    && (forall p: PayloadId, x :: InFlight(m, p, x) ==> BufferIsAway(m, p))
  }

  /** The buffer of payload `p` is neither in the pool nor loose in a hand. */
  ghost predicate BufferIsAway(m: Mem, p: PayloadId) {
    BufferOf(m, p).Some? && forall y :: !BufferIsAt(m, BufferOf(m, p).value, y)
  }

  /** The free pools and hands hold different buffers. */
  ghost predicate BuffersInOnePlace(m: Mem) {
    forall b: BufferId, x, y :: BufferIsAt(m, b, x) && BufferIsAt(m, b, y) ==> x == y
  }

  lemma {:induction false} OwnersHaveBuffers(m: Mem)
    requires Owned(m)
    ensures OwnBuffers(m)
  {
    var at :| Own(m, at);
    forall p: PayloadId, x | InFlight(m, p, x) ensures BufferIsAway(m, p) {
      assert Attached(m, at.ofB, p);
    }
    forall p: PayloadId, x, p': PayloadId, x' | InFlight(m, p, x) && InFlight(m, p', x') && p != p'
      ensures BufferOf(m, p) != BufferOf(m, p')
    {
      BuffersAreNotShared(m, at, p, x, p', x');
    }
  }

  /** Single ownership, in every run. */
  lemma {:induction false} SingleOwnership(cfg: Config, acts: seq<Action>)
    ensures var m := Run(cfg, acts).mem; InOnePlace(m) && OwnBuffers(m) && BuffersInOnePlace(m)
  {
    RunKeeps(cfg, acts);
    var m := Run(cfg, acts).mem;
    OwnersHaveBuffers(m);
    var at :| Own(m, at);
  }

  /** What goes to the pools is not there already: each get is put back at most once. */
  lemma {:induction false} PutBackOnce(cfg: Config, acts: seq<Action>, w: Worker)
    ensures var m := Run(cfg, acts).mem;
            match HandOf(m, w)
            case Some(Stripped(p)) => p !in m.freeP
            case Some(Carry(p)) => p !in m.freeP && BufferOf(m, p).Some? && BufferOf(m, p).value !in m.freeB
            case Some(Raw(b)) => b !in m.freeB
            case None => true
  {
    RunKeeps(cfg, acts);
    var m := Run(cfg, acts).mem;
    var at :| Own(m, at);
    match HandOf(m, w) {
      case Some(Stripped(p)) => assert IsAt(m, p, With(w)) && !IsAt(m, p, Free);
      case Some(Carry(p)) =>
        assert IsAt(m, p, With(w)) && !IsAt(m, p, Free) && InFlight(m, p, With(w)) && Attached(m, at.ofB, p);
        assert !BufferIsAt(m, m.payloads[p].data, FreeBuffer);
      case Some(Raw(b)) => assert BufferIsAt(m, b, RawWith(w)) && !BufferIsAt(m, b, FreeBuffer);
      case None =>
    }
  }

  /** Whatever is written to a peer's stream is a packet read from the device whose destination is the configured
      address of that peer; and only what came from the network is written to the device. */
  lemma {:induction false} RoutedToItsPeer(cfg: Config, acts: seq<Action>)
    ensures var s := Run(cfg, acts);
            && (forall k :: 0 <= k < |s.wire| ==>
                  var e := s.wire[k];
                  e.what.Tun? && e.what.sn < |s.tun| && e.peer in cfg.routes && cfg.routes[e.peer] == s.tun[e.what.sn])
            && (forall k :: 0 <= k < |s.out| ==> s.out[k].Net?)
  {
    RunKeeps(cfg, acts);
    var s := Run(cfg, acts);
    forall k | 0 <= k < |s.wire|
      ensures var e := s.wire[k];
              e.what.Tun? && e.what.sn < |s.tun| && e.peer in cfg.routes && cfg.routes[e.peer] == s.tun[e.what.sn]
    {
      assert EntryOk(s, s.wire[k]);
    }
  }

  /** Every payload waiting for a connection has the configured address of the connection's peer. */
  lemma {:induction false} ChannelsHoldTheirPackets(cfg: Config, acts: seq<Action>, c: ChanId, p: PayloadId)
    requires p in Line(Run(cfg, acts).mem, Peer(c))
    ensures var s := Run(cfg, acts);
            && c < |s.chans| && s.chans[c].peer in cfg.routes
            && cfg.routes[s.chans[c].peer] == DstOf(s.mem, p)
  {
    RunKeeps(cfg, acts);
    var s := Run(cfg, acts);
    assert InFlight(s.mem, p, In(Peer(c)));
    assert ConnOk(s, c);
  }

  /** No two connection goroutines live for the same peer; no two own the same address. */
  lemma {:induction false} OneConnectionPerPeer(cfg: Config, acts: seq<Action>, c: ChanId, d: ChanId)
    requires var s := Run(cfg, acts); c < |s.conns| && d < |s.conns| && c != d && c < |s.chans| && d < |s.chans|
    ensures var s := Run(cfg, acts); Live(s.conns[c]) && Live(s.conns[d]) ==> s.chans[c].peer != s.chans[d].peer
    ensures var s := Run(cfg, acts);
            BeforeDeleteAddr(s.conns[c]) && BeforeDeleteAddr(s.conns[d]) ==> s.chans[c].dst != s.chans[d].dst
  {
    RunKeeps(cfg, acts);
    var s := Run(cfg, acts);
    assert ConnOk(s, c) && ConnOk(s, d);
  }

  /** The deferred deletes of a connection goroutine remove its own entry of each table, and nothing else. */
  lemma {:induction false} DeletesItsOwnEntries(cfg: Config, acts: seq<Action>, c: ChanId, ok: bool)
    requires c < |Run(cfg, acts).conns|
    ensures var s := Run(cfg, acts);
            var t := Next(s, StepConn(c, ok));
            && c < |s.chans|
            && (s.conns[c].DeleteAddr? ==>
                  s.addr == t.addr[s.chans[c].dst := c] && s.chans[c].dst !in t.addr && t.id == s.id)
            && (s.conns[c].DeleteId? ==>
                  s.id == t.id[s.chans[c].peer := c] && s.chans[c].peer !in t.id && t.addr == s.addr)
            && (!s.conns[c].DeleteAddr? && !s.conns[c].DeleteId? ==> t.addr == s.addr && t.id == s.id)
  {
    RunKeeps(cfg, acts);
    var s := Run(cfg, acts);
    assert ConnOk(s, c);
  }

  /** A route leads to a channel whose goroutine has not yet made its deferred delete from that table. */
  lemma {:induction false} RoutesLeadToConnections(cfg: Config, acts: seq<Action>)
    ensures var s := Run(cfg, acts);
            forall a :: a in s.addr ==>
              var c := s.addr[a]; c < |s.chans| == |s.conns| && s.chans[c].dst == a && BeforeDeleteAddr(s.conns[c])
    ensures var s := Run(cfg, acts);
            forall k :: k in s.id ==>
              var c := s.id[k];
              c < |s.chans| == |s.conns| && s.chans[c].peer == k && (Live(s.conns[c]) || s.conns[c].Unstarted?)
  {
    RunKeeps(cfg, acts);
  }
}
