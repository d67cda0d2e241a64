/** What each goroutine of the router gets done when it takes its steps: one round of each loop, and a packet's whole
    way to a new connection. */
module RouterProgress {
  import opened Basics
  import opened PacketMem
  import opened Router
  import opened RouterMemory
  import opened RouterTables
  import opened RouterSafety
  import opened RouterPeers

  /** The same action `n` times. */
  function Again(s: State, a: Action, n: nat): State
    decreases n
  {
    if n == 0 then s else Again(Next(s, a), a, n - 1)
  }

  /** The payload and its buffer are in the pools. */
  ghost predicate PutBack(m: Mem, t: Mem, p: PayloadId) {
    p in t.freeP && BufferOf(m, p).Some? && BufferOf(m, p).value in t.freeB
  }

  /** Worker `w`'s hand and the channels, after a payload has been put back in two steps. */
  lemma {:induction false} PuttingBack(m: Mem, w: Worker, p: PayloadId)
    requires HandOf(m, w) == Some(Carry(p)) && p < |m.payloads|
    ensures var t := PutPayload(Strip(m, w), w);
            && PutBack(m, t, p) && HandOf(t, w).None? && t.queues == m.queues && t.payloads == m.payloads
            && t.buffers == m.buffers && (forall v :: v != w ==> HandOf(t, v) == HandOf(m, v))
  {
    assert HandOf(Strip(m, w), w) == Some(Stripped(p));
  }

  lemma {:induction false} InHand(s: State, w: Worker)
    requires Inv(s) && Needs(s, w) == Whole
    ensures HandOf(s.mem, w) == Some(Carry(Mine(s, w))) && Mine(s, w) < |s.mem.payloads|
    ensures InFlight(s.mem, Mine(s, w), With(w))
  {
    assert GripOf(HandOf(s.mem, w)) == Needs(s, w);
    var at :| Own(s.mem, at);
    assert IsAt(s.mem, Mine(s, w), With(w));
  }

  // ----- RoutineTUNWriter

  /** The device writer takes the first message, writes it to the device and puts everything back. */
  lemma {:induction false} WriterWrites(s: State)
    requires Reachable(s) && s.writer.Await? && Line(s.mem, DevWriter) != []
    ensures var t, p := Again(s, StepWriter, 4), Line(s.mem, DevWriter)[0];
            && t.writer.Await? && t.out == s.out + [DataOf(s.mem, p)] && PutBack(s.mem, t.mem, p)
            && Line(t.mem, DevWriter) == Line(s.mem, DevWriter)[1..]
  {
    var p, s1 := Line(s.mem, DevWriter)[0], DoWriter(s);
    var s2 := DoWriter(s1);
    var s3 := DoWriter(s2);
    var s4 := DoWriter(s3);
    ReachableKept(s, StepWriter);
    InHand(s1, TunWriter);
    assert s1.mem.payloads == s.mem.payloads && s1.mem.buffers == s.mem.buffers && Mine(s1, TunWriter) == p;
    assert s2.mem == s1.mem && s2.out == s.out + [DataOf(s.mem, p)];
    PuttingBack(s2.mem, TunWriter, p);
    assert Again(s, StepWriter, 4) == Again(s1, StepWriter, 3) == Again(s2, StepWriter, 2)
        == Again(s3, StepWriter, 1) == Again(s4, StepWriter, 0);
  }

  // ----- RoutineTUNReader

  /** The reader gets a buffer and reads a packet that it keeps. */
  lemma {:induction false} ReaderReads(s: State, dst: Addr, pick: nat)
    requires Reachable(s) && s.reader.Fetch? && (Group(s, dst) ==> s.cfg.broadcast)
    ensures var t := Again(s, StepReader(Good(dst), pick), 3);
            && t.reader.Offer? && t.tun == s.tun + [dst] && t.mem.queues == s.mem.queues
            && HandOf(t.mem, TunReader).Some? && HandOf(t.mem, TunReader).value.Carry?
            && DstOf(t.mem, Mine(t, TunReader)) == dst && DataOf(t.mem, Mine(t, TunReader)) == Tun(|s.tun|)
  {
    var a := StepReader(Good(dst), pick);
    var s2 := Again(s, a, 2);
    ReaderFetches(s, dst, pick);
    AgainReaches(s, a, 2);
    AgainReaches(s, a, 3);
    AgainJoins(s, a, 2, 1);
    ReaderWraps(s2, dst, Good(dst), pick);
  }

  lemma {:induction false} ReaderWraps(s: State, dst: Addr, packet: Packet, pick: nat)
    requires Reachable(s) && s.reader == Wrapping(dst)
    ensures var t := Again(s, StepReader(packet, pick), 1);
            && t.reader.Offer? && t.tun == s.tun && t.mem.queues == s.mem.queues
            && HandOf(t.mem, TunReader).Some? && HandOf(t.mem, TunReader).value.Carry?
            && DstOf(t.mem, Mine(t, TunReader)) == dst
            && DataOf(t.mem, Mine(t, TunReader)) == RawContent(s.mem, TunReader)
  {
    var a := StepReader(packet, pick);
    var s1 := DoReader(s, packet, pick);
    NextMem(s, a);
    assert Again(s, a, 1) == Again(s1, a, 0);
  }

  lemma {:induction false} ReaderFetches(s: State, dst: Addr, pick: nat)
    requires Reachable(s) && s.reader.Fetch? && (Group(s, dst) ==> s.cfg.broadcast)
    ensures var t := Again(s, StepReader(Good(dst), pick), 2);
            && t.reader == Wrapping(dst) && t.tun == s.tun + [dst] && t.mem.queues == s.mem.queues
            && RawContent(t.mem, TunReader) == Tun(|s.tun|)
  {
    var a := StepReader(Good(dst), pick);
    var s1 := Next(s, a);
    var s2 := Next(s1, a);
    ReachableKept(s, a);
    ReachableKept(s1, a);
    assert s1.reader.Scan? && s1.tun == s.tun && s1.cfg == s.cfg && s1.mem.queues == s.mem.queues;
    assert s2.reader == Wrapping(dst) && s2.tun == s.tun + [dst] && s2.mem.queues == s1.mem.queues;
    assert Again(s, a, 2) == Again(s1, a, 1) == Again(s2, a, 0);
  }

  /** What the reader does with a packet: it keeps all but those that do not parse and unwanted broadcasts. */
  lemma {:induction false} ReaderDropsExactly(s: State, packet: Packet, pick: nat)
    requires s.reader.Scan?
    ensures var t := Next(s, StepReader(packet, pick));
            && (t.reader.ReturnRaw? <==> packet.ReadError?)
            && (t.reader.Fetch? <==> packet.Malformed? || (packet.Good? && Group(s, packet.dst) && !s.cfg.broadcast))
            && (t.tun == if t.reader.Wrapping? then s.tun + [packet.dst] else s.tun)
  {
  }

  /** After a failed read the buffer goes back to the pool. */
  lemma {:induction false} ReaderReturnsBuffer(s: State, packet: Packet, pick: nat)
    requires Reachable(s) && s.reader.ReturnRaw?
    ensures var t := Next(s, StepReader(packet, pick));
            && t.reader.Fetch? && HandOf(t.mem, TunReader).None?
            && HandOf(s.mem, TunReader).Some? && HandOf(s.mem, TunReader).value.Raw?
            && HandOf(s.mem, TunReader).value.b in t.mem.freeB
  {
    assert GripOf(HandOf(s.mem, TunReader)) == Needs(s, TunReader) == Bare;
  }

  /** It offers the packet to the router, or puts it back when devReader is full. */
  lemma {:induction false} ReaderOffers(s: State, packet: Packet, pick: nat)
    requires Reachable(s) && s.reader.Offer?
    ensures var p, t := Mine(s, TunReader), Again(s, StepReader(packet, pick), 1);
            HasRoom(s, DevReader) ==> t.reader.Fetch? && Line(t.mem, DevReader) == Line(s.mem, DevReader) + [p]
    ensures var p, t := Mine(s, TunReader), Again(s, StepReader(packet, pick), 3);
            !HasRoom(s, DevReader) ==> t.reader.Fetch? && t.mem.queues == s.mem.queues && PutBack(s.mem, t.mem, p)
  {
    var a := StepReader(packet, pick);
    InHand(s, TunReader);
    PuttingBack(s.mem, TunReader, Mine(s, TunReader));
    var s1 := DoReader(s, packet, pick);
    assert Again(s, a, 1) == Again(s1, a, 0);
    if !HasRoom(s, DevReader) {
      var s2 := DoReader(s1, packet, pick);
      var s3 := DoReader(s2, packet, pick);
      assert s1 == s.(reader := ReaderFree);
      assert Again(s, a, 3) == Again(s1, a, 2) == Again(s2, a, 1) == Again(s3, a, 0);
    }
  }

  // ----- RoutineRouteTableWriter

  /** A packet for a known address goes to its connection. */
  lemma {:induction false} KnownAddressIsUsed(s: State, key: PeerId)
    requires Reachable(s) && s.router.Route? && RouterDst(s) in s.addr && !(Group(s, RouterDst(s)) && s.cfg.broadcast)
    ensures var c := s.addr[RouterDst(s)];
            && Next(s, StepRouter(key)) == s.(router := Forward(c))
            && c < |s.chans| && s.chans[c].dst == RouterDst(s) && BeforeDeleteAddr(s.conns[c])
  {
  }

  /** A packet for an address that is not known is looked for; a broadcast is dropped exactly when it is enabled. */
  lemma {:induction false} RouteAbandonsExactly(s: State, key: PeerId)
    requires s.router.Route?
    ensures var t := Next(s, StepRouter(key));
            && (t.router.Receive? <==> Group(s, RouterDst(s)) && s.cfg.broadcast)
            && (t.router.Search? <==> !(Group(s, RouterDst(s)) && s.cfg.broadcast) && RouterDst(s) !in s.addr)
  {
  }

  /** The search drops a packet if and only if no configured peer has its address. */
  lemma {:induction false} SearchAbandonsExactly(s: State, key: PeerId)
    requires s.router.Search?
    ensures Next(s, StepRouter(key)).router.Receive?
            <==> RouterDst(s) !in s.addr && forall k :: k in s.cfg.routes ==> s.cfg.routes[k] != RouterDst(s)
  {
  }

  /** A packet for a peer that has a channel, under another address, goes there. */
  lemma {:induction false} KnownPeerIsUsed(s: State, key: PeerId)
    requires Reachable(s) && s.router.Search? && RouterDst(s) !in s.addr
    requires key in s.cfg.routes && s.cfg.routes[key] == RouterDst(s) && key in s.id
    ensures Again(s, StepRouter(key), 2) == s.(router := Forward(s.id[key]))
    ensures s.id[key] < |s.chans| && s.chans[s.id[key]].peer == key
  {
    var a := StepRouter(key);
    var s1 := Next(s, a);
    assert s1 == s.(router := Dial(key));
    assert Again(s, a, 2) == Again(s1, a, 1) == Again(Next(s1, a), a, 0);
  }

  /** A packet for a configured peer that has no channel makes one, registers it in both tables and starts its
      connection, whatever connections there have been. */
  lemma {:induction false} NewConnectionIsMade(s: State, key: PeerId)
    requires Reachable(s) && s.router.Search? && RouterDst(s) !in s.addr
    requires key in s.cfg.routes && s.cfg.routes[key] == RouterDst(s) && key !in s.id
    ensures var c, dst := |s.chans|, RouterDst(s);
            Again(s, StepRouter(key), 4) ==
              s.(chans := s.chans + [Chan(key, dst)], conns := s.conns + [Connecting],
                 addr := s.addr[dst := c], id := s.id[key := c], router := Forward(c))
  {
    var a, c, dst := StepRouter(key), |s.chans|, RouterDst(s);
    var s1 := DoRouter(s, key);
    var s2 := DoRouter(s1, key);
    var s3 := DoRouter(s2, key);
    var s4 := DoRouter(s3, key);
    assert s1 == s.(router := Dial(key));
    assert s2 == s.(chans := s.chans + [Chan(key, dst)], conns := s.conns + [Unstarted], addr := s.addr[dst := c],
                    router := Register(c));
    assert s3 == s2.(id := s.id[key := c], router := Launch(c));
    assert s4.conns == s.conns + [Connecting];
    assert Again(s, a, 4) == Again(s1, a, 3) == Again(s2, a, 2) == Again(s3, a, 1) == Again(s4, a, 0);
  }

  /** The packet is sent to its channel, or put back when that is full. */
  lemma {:induction false} RouterForwards(s: State, key: PeerId, c: ChanId)
    requires Reachable(s) && s.router == Forward(c)
    ensures var p, t := Mine(s, RouteWriter), Again(s, StepRouter(key), 1);
            HasRoom(s, Peer(c)) ==>
              && t == s.(mem := t.mem, router := Receive) && Line(t.mem, Peer(c)) == Line(s.mem, Peer(c)) + [p]
              && t.mem.payloads == s.mem.payloads && t.mem.buffers == s.mem.buffers
              && (forall v :: v != RouteWriter ==> HandOf(t.mem, v) == HandOf(s.mem, v))
    ensures var p, t := Mine(s, RouteWriter), Again(s, StepRouter(key), 3);
            !HasRoom(s, Peer(c)) ==> t.router.Receive? && t.mem.queues == s.mem.queues && PutBack(s.mem, t.mem, p)
  {
    var a := StepRouter(key);
    InHand(s, RouteWriter);
    PuttingBack(s.mem, RouteWriter, Mine(s, RouteWriter));
    var s1 := DoRouter(s, key);
    assert Again(s, a, 1) == Again(s1, a, 0);
    if !HasRoom(s, Peer(c)) {
      var s2 := DoRouter(s1, key);
      var s3 := DoRouter(s2, key);
      assert s1 == s.(router := RouterFree);
      assert Again(s, a, 3) == Again(s1, a, 2) == Again(s2, a, 1) == Again(s3, a, 0);
    }
  }

  // ----- addConn

  /** A connection takes the first packet of its channel, tries to write it and puts everything back; it goes on if and
      only if the write succeeds. */
  lemma {:induction false} ConnectionWrites(s: State, c: ChanId, ok: bool)
    requires Reachable(s) && c < |s.conns| && s.conns[c] == Running(Idle) && Line(s.mem, Peer(c)) != []
    ensures var t, p := Again(s, StepConn(c, ok), 4), Line(s.mem, Peer(c))[0];
            && c < |s.chans| && t.conns == s.conns[c := if ok then Running(Idle) else DeleteAddr]
            && t.wire == (if ok then s.wire + [Sent(Conn(c), s.chans[c].peer, DstOf(s.mem, p), DataOf(s.mem, p))]
                          else s.wire)
            && PutBack(s.mem, t.mem, p) && Line(t.mem, Peer(c)) == Line(s.mem, Peer(c))[1..]
            && t == s.(mem := t.mem, wire := t.wire, conns := t.conns)
            && (forall q :: q != Peer(c) ==> Line(t.mem, q) == Line(s.mem, q))
            && t.mem.payloads == s.mem.payloads && t.mem.buffers == s.mem.buffers
  {
    var a := StepConn(c, ok);
    ConnectionTries(s, c, ok);
    AgainReaches(s, a, 2);
    ConnectionPutsBack(Again(s, a, 2), c, ok);
    AgainJoins(s, a, 2, 2);
  }

  lemma {:induction false} ConnectionTries(s: State, c: ChanId, ok: bool)
    requires Reachable(s) && c < |s.conns| && s.conns[c] == Running(Idle) && Line(s.mem, Peer(c)) != []
    ensures var t, p := Again(s, StepConn(c, ok), 2), Line(s.mem, Peer(c))[0];
            && c < |s.chans| && t.conns == s.conns[c := Running(Freeing(ok))] && Mine(t, Conn(c)) == p
            && t.wire == (if ok then s.wire + [Sent(Conn(c), s.chans[c].peer, DstOf(s.mem, p), DataOf(s.mem, p))]
                          else s.wire)
            && Line(t.mem, Peer(c)) == Line(s.mem, Peer(c))[1..]
            && t == s.(mem := t.mem, wire := t.wire, conns := t.conns)
            && (forall q :: q != Peer(c) ==> Line(t.mem, q) == Line(s.mem, q))
            && t.mem.payloads == s.mem.payloads && t.mem.buffers == s.mem.buffers
  {
    var a := StepConn(c, ok);
    var s1 := DoConn(s, c, ok);
    var s2 := DoConn(s1, c, ok);
    assert s1.conns[c] == Running(Sending) && Mine(s1, Conn(c)) == Line(s.mem, Peer(c))[0];
    assert s2.mem == s1.mem && s2.conns == s.conns[c := Running(Freeing(ok))];
    assert Again(s, a, 2) == Again(s1, a, 1) == Again(s2, a, 0);
  }

  lemma {:induction false} ConnectionPutsBack(s: State, c: ChanId, ok: bool)
    requires Reachable(s) && c < |s.conns| && s.conns[c] == Running(Freeing(ok))
    ensures var t, p := Again(s, StepConn(c, ok), 2), Mine(s, Conn(c));
            && t.conns == s.conns[c := if ok then Running(Idle) else DeleteAddr] && PutBack(s.mem, t.mem, p)
            && t == s.(mem := t.mem, conns := t.conns) && t.mem.queues == s.mem.queues
            && t.mem.payloads == s.mem.payloads && t.mem.buffers == s.mem.buffers
  {
    var a := StepConn(c, ok);
    var s1 := DoConn(s, c, ok);
    var s2 := DoConn(s1, c, ok);
    InHand(s, Conn(c));
    PuttingBack(s.mem, Conn(c), Mine(s, Conn(c)));
    assert s1.conns[c] == Running(Putting(ok));
    assert s2.conns == s.conns[c := if ok then Running(Idle) else DeleteAddr];
    assert Again(s, a, 2) == Again(s1, a, 1) == Again(s2, a, 0);
  }

  /** A connection begins exactly when its search succeeds, and then with a receiver. */
  lemma {:induction false} ConnectionBegins(s: State, a: Action, c: ChanId)
    requires TablesOk(s) && c < |s.conns| && !s.conns[c].Running?
    ensures var t := Next(s, a);
            && c < |t.conns| && (t.conns[c].Running? <==> s.conns[c].Connecting? && a == StepConn(c, true))
            && (t.conns[c].Running? ==> t.conns[c] == Running(Idle) && t.receivers == s.receivers + [Reading])
            && (s.conns[c].Connecting? && a == StepConn(c, false) ==> t.conns[c] == DeleteAddr)
  {
    match a {
      case StepConn(d, ok) => if d < |s.conns| { ConnMoves(s, d, ok); }
      case StepRouter(key) => LaunchStarts(s, key);
      case _ => OtherConnsStay(s, a);
    }
  }

  /** A connection ends exactly when it has put back a payload whose write failed, and a write fails exactly as the
      network says. */
  lemma {:induction false} ConnectionEnds(s: State, a: Action, c: ChanId)
    requires TablesOk(s) && c < |s.conns| && s.conns[c].Running?
    ensures var t := Next(s, a);
            && c < |t.conns|
            && (!t.conns[c].Running? <==> s.conns[c] == Running(Putting(false)) && a.StepConn? && a.c == c)
            && (s.conns[c] == Running(Sending) ==>
                  (t.conns[c] == Running(Freeing(false)) <==> a == StepConn(c, false)))
  {
    match a {
      case StepConn(d, ok) => if d < |s.conns| { ConnMoves(s, d, ok); }
      case StepRouter(key) => LaunchStarts(s, key); if s.router.Launch? { assert s.conns[s.router.c].Unstarted?; }
      case _ => OtherConnsStay(s, a);
    }
  }

  /** After it, the goroutine deletes its two table entries and is dead. */
  lemma {:induction false} ConnectionDies(s: State, c: ChanId, ok: bool)
    requires Reachable(s) && c < |s.conns| && s.conns[c].DeleteAddr?
    ensures c < |s.chans|
    ensures Again(s, StepConn(c, ok), 2) ==
              s.(addr := s.addr - {s.chans[c].dst}, id := s.id - {s.chans[c].peer}, conns := s.conns[c := Dead])
  {
    var a := StepConn(c, ok);
    var s1 := DoConn(s, c, ok);
    var s2 := DoConn(s1, c, ok);
    assert s2.conns == s.conns[c := Dead];
    assert Again(s, a, 2) == Again(s1, a, 1) == Again(s2, a, 0);
  }

  /** A connection that has just been started, and its first packet. */
  lemma {:induction false} FirstPacketIsWritten(s: State, c: ChanId)
    requires Reachable(s) && c < |s.conns| && s.conns[c].Connecting? && Line(s.mem, Peer(c)) != []
    ensures var t, p := Again(s, StepConn(c, true), 3), Line(s.mem, Peer(c))[0];
            && c < |s.chans| && t.conns == s.conns[c := Running(Freeing(true))]
            && t.wire == s.wire + [Sent(Conn(c), s.chans[c].peer, DstOf(s.mem, p), DataOf(s.mem, p))]
  {
    var b, p := StepConn(c, true), Line(s.mem, Peer(c))[0];
    var s1 := DoConn(s, c, true);
    var s2 := DoConn(s1, c, true);
    var s3 := DoConn(s2, c, true);
    assert s1.conns[c] == Running(Idle) && s1.mem == s.mem;
    assert s2.conns[c] == Running(Sending) && Mine(s2, Conn(c)) == p;
    assert s3.conns == s.conns[c := Running(Freeing(true))];
    assert Again(s, b, 3) == Again(s1, b, 2) == Again(s2, b, 1) == Again(s3, b, 0);
  }

  /** A packet for a configured peer without a connection: it is written to that peer by a connection made for it, after
      five steps of the router and three of the connection, whatever connections there have been. */
  lemma {:induction false} NewPeerIsServed(s: State, key: PeerId) returns (t: State)
    requires Reachable(s) && s.router.Search? && RouterDst(s) !in s.addr && 0 < s.cfg.room
    requires key in s.cfg.routes && s.cfg.routes[key] == RouterDst(s) && key !in s.id
    ensures t == Again(Again(s, StepRouter(key), 5), StepConn(|s.chans|, true), 3)
    ensures var c, p := |s.chans|, Mine(s, RouteWriter);
            && t.wire == s.wire + [Sent(Conn(c), key, RouterDst(s), DataOf(s.mem, p))]
            && t.conns == s.conns + [Running(Freeing(true))]
  {
    var a, c := StepRouter(key), |s.chans|;
    NewPeerIsOffered(s, key);
    AgainReaches(s, a, 5);
    FirstPacketIsWritten(Again(s, a, 5), c);
    t := Again(Again(s, a, 5), StepConn(c, true), 3);
  }

  lemma {:induction false} NewPeerIsOffered(s: State, key: PeerId)
    requires Reachable(s) && s.router.Search? && RouterDst(s) !in s.addr && 0 < s.cfg.room
    requires key in s.cfg.routes && s.cfg.routes[key] == RouterDst(s) && key !in s.id
    ensures var t, c, p := Again(s, StepRouter(key), 5), |s.chans|, Mine(s, RouteWriter);
            && t.router.Receive? && t.chans == s.chans + [Chan(key, RouterDst(s))] && t.conns == s.conns + [Connecting]
            && |s.conns| == c && t.wire == s.wire && Line(t.mem, Peer(c)) == [p]
            && DstOf(t.mem, p) == RouterDst(s) && DataOf(t.mem, p) == DataOf(s.mem, p)
  {
    var a, c := StepRouter(key), |s.chans|;
    NewConnectionIsMade(s, key);
    NewLineIsEmpty(s, c);
    AgainReaches(s, a, 4);
    RouterForwards(Again(s, a, 4), key, c);
    AgainJoins(s, a, 4, 1);
  }

  /** A connection that fails while it has something to write, and the next packet for its peer: a successor is made
      and writes that packet, whatever connections there have been. */
  lemma {:induction false} SuccessorServes(s: State, c: ChanId) returns (t: State)
    requires Reachable(s) && c < |s.conns| && s.conns[c] == Running(Idle) && Line(s.mem, Peer(c)) != []
    requires s.router.Receive? && Line(s.mem, DevReader) != [] && 0 < s.cfg.room
    requires c < |s.chans| && DstOf(s.mem, Line(s.mem, DevReader)[0]) == s.chans[c].dst
    requires !(Group(s, s.chans[c].dst) && s.cfg.broadcast)
    ensures var u := Again(s, StepConn(c, false), 6);
            var key, d := s.chans[c].peer, |s.chans|;
            && t == Again(Again(u, StepRouter(key), 7), StepConn(d, true), 3)
            && t.conns == s.conns[c := Dead] + [Running(Freeing(true))]
            && t.wire == s.wire + [Sent(Conn(d), key, s.chans[c].dst, DataOf(s.mem, Line(s.mem, DevReader)[0]))]
  {
    var key, u := s.chans[c].peer, Again(s, StepConn(c, false), 6);
    var a := StepRouter(key);
    SearchesAnew(s, c);
    AgainReaches(s, StepConn(c, false), 6);
    AgainReaches(u, a, 2);
    t := NewPeerIsServed(Again(u, a, 2), key);
    AgainJoins(u, a, 2, 5);
  }

  /** The router searches for the failed connection's peer again. */
  lemma {:induction false} SearchesAnew(s: State, c: ChanId)
    requires Reachable(s) && c < |s.conns| && s.conns[c] == Running(Idle) && Line(s.mem, Peer(c)) != []
    requires s.router.Receive? && Line(s.mem, DevReader) != []
    requires c < |s.chans| && DstOf(s.mem, Line(s.mem, DevReader)[0]) == s.chans[c].dst
    requires !(Group(s, s.chans[c].dst) && s.cfg.broadcast)
    ensures var key, q := s.chans[c].peer, Line(s.mem, DevReader)[0];
            var v := Again(Again(s, StepConn(c, false), 6), StepRouter(key), 2);
            && v.router.Search? && RouterDst(v) == s.chans[c].dst && Mine(v, RouteWriter) == q
            && DataOf(v.mem, q) == DataOf(s.mem, q) && RouterDst(v) !in v.addr && key !in v.id
            && v.cfg == s.cfg && key in s.cfg.routes && s.cfg.routes[key] == s.chans[c].dst
            && v.chans == s.chans && v.conns == s.conns[c := Dead] && v.wire == s.wire
  {
    FailsAndDies(s, c);
    AgainReaches(s, StepConn(c, false), 6);
    assert ConnOk(s, c);
    TakesNext(Again(s, StepConn(c, false), 6), s.chans[c].peer);
  }

  /** A connection whose write fails is gone from both tables after six steps. */
  lemma {:induction false} FailsAndDies(s: State, c: ChanId)
    requires Reachable(s) && c < |s.conns| && s.conns[c] == Running(Idle) && Line(s.mem, Peer(c)) != []
    ensures var t := Again(s, StepConn(c, false), 6);
            && c < |s.chans|
            && t == s.(mem := t.mem, addr := s.addr - {s.chans[c].dst}, id := s.id - {s.chans[c].peer},
                       conns := s.conns[c := Dead])
            && Line(t.mem, DevReader) == Line(s.mem, DevReader)
            && t.mem.payloads == s.mem.payloads && t.mem.buffers == s.mem.buffers
  {
    var b := StepConn(c, false);
    ConnectionWrites(s, c, false);
    AgainReaches(s, b, 4);
    ConnectionDies(Again(s, b, 4), c, false);
    AgainJoins(s, b, 4, 2);
  }

  /** The router takes the next packet and, not knowing its address, starts to search. */
  lemma {:induction false} TakesNext(u: State, key: PeerId)
    requires Reachable(u) && u.router.Receive? && Line(u.mem, DevReader) != []
    requires DstOf(u.mem, Line(u.mem, DevReader)[0]) !in u.addr
    requires !(Group(u, DstOf(u.mem, Line(u.mem, DevReader)[0])) && u.cfg.broadcast)
    ensures var v, q := Again(u, StepRouter(key), 2), Line(u.mem, DevReader)[0];
            && v == u.(mem := v.mem, router := Search) && Mine(v, RouteWriter) == q
            && v.mem.payloads == u.mem.payloads && v.mem.buffers == u.mem.buffers
  {
    var a := StepRouter(key);
    var s1 := DoRouter(u, key);
    var s2 := DoRouter(s1, key);
    assert s1.router == Route && Mine(s1, RouteWriter) == Line(u.mem, DevReader)[0];
    assert s2 == s1.(router := Search);
    assert Again(u, a, 2) == Again(s1, a, 1) == Again(s2, a, 0);
  }

  lemma {:induction false} AgainIterates(s: State, a: Action, n: nat)
    ensures Again(s, a, n) == Iterate(Next, s, a, n)
    decreases n
  {
    if n > 0 { AgainIterates(Next(s, a), a, n - 1); }
  }

  lemma {:induction false} AgainJoins(s: State, a: Action, m: nat, n: nat)
    ensures Again(Again(s, a, m), a, n) == Again(s, a, m + n)
  {
    AgainIterates(s, a, m);
    AgainIterates(s, a, m + n);
    AgainIterates(Again(s, a, m), a, n);
    IterateJoins(Next, s, a, m, n);
  }

  lemma {:induction false} AgainReaches(s: State, a: Action, n: nat)
    requires Reachable(s)
    ensures Reachable(Again(s, a, n))
    decreases n
  {
    if n > 0 {
      ReachableKept(s, a);
      AgainReaches(Next(s, a), a, n - 1);
    }
  }

  // ----- VPNHandler

  /** A handler takes the first packet of its channel, tries to write it, puts everything back and goes on. */
  lemma {:induction false} HandlerWrites(s: State, i: nat, ok: bool)
    requires Reachable(s) && i < |s.handlers| && s.handlers[i].drain.Idle? && Line(s.mem, Peer(s.handlers[i].c)) != []
    ensures var c := s.handlers[i].c;
            var t, p := Again(s, StepHandler(i, ok), 4), Line(s.mem, Peer(c))[0];
            && c < |s.chans| && t.handlers == s.handlers
            && t.wire == (if ok then s.wire + [Sent(Handler(i), s.chans[c].peer, DstOf(s.mem, p), DataOf(s.mem, p))]
                          else s.wire)
            && PutBack(s.mem, t.mem, p) && Line(t.mem, Peer(c)) == Line(s.mem, Peer(c))[1..]
  {
    var a, c := StepHandler(i, ok), s.handlers[i].c;
    var p := Line(s.mem, Peer(c))[0];
    var s1 := DoHandler(s, i, ok);
    var s2 := DoHandler(s1, i, ok);
    var s3 := DoHandler(s2, i, ok);
    var s4 := DoHandler(s3, i, ok);
    ReachableKept(s, a);
    assert s1.handlers[i] == Handling(c, Sending);
    InHand(s1, Handler(i));
    assert s1.mem.payloads == s.mem.payloads && s1.mem.buffers == s.mem.buffers && Mine(s1, Handler(i)) == p;
    assert s2.mem == s1.mem && s2.handlers[i] == Handling(c, Freeing(ok));
    PuttingBack(s2.mem, Handler(i), p);
    assert s3.handlers[i] == Handling(c, Putting(ok));
    assert s4.handlers == s.handlers;
    assert Again(s, a, 4) == Again(s1, a, 3) == Again(s2, a, 2) == Again(s3, a, 1) == Again(s4, a, 0);
  }

  /** A stream from a peer is served exactly when the peer is configured and has a channel: a handler on that channel
      and a receiver. */
  lemma {:induction false} InboundIsServed(s: State, peer: PeerId)
    ensures var t := Next(s, Inbound(peer));
            if peer in s.cfg.routes && peer in s.id then
              t == s.(handlers := s.handlers + [Handling(s.id[peer], Idle)], receivers := s.receivers + [Reading])
            else t == s
  {
  }

  // ----- the goroutine that reads a stream

  /** A message that a receiver reads goes to the end of devWriter, once there is room; a failed read ends it. */
  lemma {:induction false} ReceiverReceives(s: State, i: nat, pick: nat)
    requires Reachable(s) && i < |s.receivers| && s.receivers[i].Reading? && HasRoom(s, DevWriter)
    ensures var t := Again(s, StepReceiver(i, true, pick), 3);
            && t.receivers == s.receivers && t.heard == s.heard + 1
            && |Line(t.mem, DevWriter)| == |Line(s.mem, DevWriter)| + 1
            && Line(t.mem, DevWriter)[..|Line(s.mem, DevWriter)|] == Line(s.mem, DevWriter)
            && DataOf(t.mem, Line(t.mem, DevWriter)[|Line(s.mem, DevWriter)|]) == Net(i, s.heard)
  {
    var a := StepReceiver(i, true, pick);
    ReceiverFills(s, i, pick);
    AgainReaches(s, a, 2);
    ReceiverPosts(Again(s, a, 2), i, pick);
    AgainJoins(s, a, 2, 1);
  }

  lemma {:induction false} ReceiverPosts(s: State, i: nat, pick: nat)
    requires Reachable(s) && i < |s.receivers| && s.receivers[i].Posting? && HasRoom(s, DevWriter)
    ensures var t, p := Again(s, StepReceiver(i, true, pick), 1), Mine(s, Receiver(i));
            && t.receivers == s.receivers[i := Reading] && t.heard == s.heard
            && Line(t.mem, DevWriter) == Line(s.mem, DevWriter) + [p] && DataOf(t.mem, p) == DataOf(s.mem, p)
  {
    var a := StepReceiver(i, true, pick);
    InHand(s, Receiver(i));
    assert Again(s, a, 1) == Again(DoReceiver(s, i, true, pick), a, 0);
  }

  lemma {:induction false} ReceiverFills(s: State, i: nat, pick: nat)
    requires Reachable(s) && i < |s.receivers| && s.receivers[i].Reading?
    ensures var t := Again(s, StepReceiver(i, true, pick), 2);
            && t.receivers == s.receivers[i := Posting] && t.heard == s.heard + 1 && t.cfg == s.cfg
            && t.mem.queues == s.mem.queues && DataOf(t.mem, Mine(t, Receiver(i))) == Net(i, s.heard)
  {
    var a := StepReceiver(i, true, pick);
    var s1 := DoReceiver(s, i, true, pick);
    ReachableKept(s, a);
    assert GripOf(HandOf(s1.mem, Receiver(i))) == Needs(s1, Receiver(i)) == Empty;
    var at :| Own(s1.mem, at);
    var at' := AttachBufferOwns(s1.mem, at, Receiver(i), pick, Net(i, s.heard));
    assert s1.mem.queues == s.mem.queues;
    assert Again(s, a, 2) == Again(s1, a, 1) == Again(DoReceiver(s1, i, true, pick), a, 0);
  }

  lemma {:induction false} ReceiverWaitsOrStops(s: State, i: nat, ok: bool, pick: nat)
    requires i < |s.receivers|
    ensures s.receivers[i].Posting? ==>
              (Next(s, StepReceiver(i, ok, pick)) == s <==> !HasRoom(s, DevWriter))
    ensures s.receivers[i].Reading? ==>
              (Next(s, StepReceiver(i, ok, pick)).receivers[i].Stopped? <==> !ok)
  {
    if s.receivers[i].Posting? && HasRoom(s, DevWriter) {
      assert Next(s, StepReceiver(i, ok, pick)).receivers[i].Reading?;
    }
  }
}
