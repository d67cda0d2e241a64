/** With an inbound handler draining the same channel as a connection, a peer can get its packets out of order. */
module RouterHandlers {
  import opened PacketMem
  import opened Router
  import opened RouterOrder

  const CFG: Config := Config(map["A" := 1], {}, false, 8)

  /** A run that leads to state `s`. */
  ghost predicate Reached(s: State) {
    exists acts :: Run(CFG, acts) == s
  }

  lemma {:induction false} Reaches(s: State, a: Action)
    requires Reached(s)
    ensures Reached(Next(s, a))
  {
    var acts :| Run(CFG, acts) == s;
    assert (acts + [a])[..|acts + [a]| - 1] == acts;
    assert Run(CFG, acts + [a]) == Next(s, a);
  }

  /** Getting a buffer and reading one packet for address 1 into it, when the pools are empty. */
  lemma {:induction false} ReachesFilled(s: State) returns (t: State)
    requires Reached(s) && s.cfg == CFG && s.reader == Fetch && s.mem.hands == map[] && s.mem.freeB == {}
    ensures Reached(t)
    ensures t == s.(
              tun := s.tun + [1], reader := Wrapping(1),
              mem := s.mem.(buffers := s.mem.buffers + [Tun(|s.tun|)], hands := map[TunReader := Raw(|s.mem.buffers|)]))
  {
    var a := StepReader(Good(1), 0);
    var s1 := DoReader(s, Good(1), 0);
    t := DoReader(s1, Good(1), 0);
    assert s1.mem.hands == map[TunReader := Raw(|s.mem.buffers|)] && s1.reader == Scan;
    assert t.mem.buffers == s.mem.buffers + [Tun(|s.tun|)];
    Reaches(s, a);
    Reaches(s1, a);
  }

  /** Reading one packet for address 1, when the pools are empty. */
  lemma {:induction false} ReachesRead(s: State) returns (t: State)
    requires Reached(s) && s.cfg == CFG && s.reader == Fetch && s.mem.hands == map[]
    requires s.mem.freeB == {} && s.mem.freeP == {} && |Line(s.mem, DevReader)| < 8
    ensures Reached(t)
    ensures var b, p := |s.mem.buffers|, |s.mem.payloads|;
            t == s.(
              tun := s.tun + [1],
              mem := s.mem.(buffers := s.mem.buffers + [Tun(|s.tun|)], payloads := s.mem.payloads + [Payload(1, b)],
                            queues := s.mem.queues[DevReader := Line(s.mem, DevReader) + [p]]))
  {
    var a := StepReader(Good(1), 0);
    var s2 := ReachesFilled(s);
    var s3 := DoReader(s2, Good(1), 0);
    t := DoReader(s3, Good(1), 0);
    assert s3.mem.hands[TunReader] == Carry(|s.mem.payloads|) && s3.reader == Offer;
    assert t.mem.hands == map[];
    Reaches(s2, a);
    Reaches(s3, a);
  }

  lemma {:induction false} ReachesRoute(s: State)
    requires Reached(s)
    ensures Reached(DoRouter(s, "A"))
  {
    Reaches(s, StepRouter("A"));
  }

  lemma {:induction false} ReachesConn(s: State)
    requires Reached(s) && |s.conns| == |s.chans| == 1
    ensures Reached(DoConn(s, 0, true))
  {
    Reaches(s, StepConn(0, true));
  }

  lemma {:induction false} ReachesHandle(s: State)
    requires Reached(s) && |s.handlers| == 1 && s.handlers[0].c < |s.chans|
    ensures Reached(DoHandler(s, 0, true))
  {
    Reaches(s, StepHandler(0, true));
  }

  /** The two packets, the router's payload and the channels as given. */
  function Packets(hands: map<Worker, Hand>, queues: map<Queue, seq<PayloadId>>): Mem {
    Mem([Payload(1, 0), Payload(1, 1)], {}, [Tun(0), Tun(1)], {}, hands, queues)
  }

  lemma {:induction false} ReachesOneRead() returns (t: State)
    ensures Reached(t)
    ensures t == Init(CFG).(
              tun := [1], mem := Mem([Payload(1, 0)], {}, [Tun(0)], {}, map[], map[DevReader := [0]]))
  {
    assert Run(CFG, []) == Init(CFG);
    t := ReachesRead(Init(CFG));
    assert Line(EMPTY, DevReader) + [0] == [0];
    assert t.mem.queues == map[DevReader := [0]];
  }

  lemma {:induction false} ReachesTwoRead() returns (t: State)
    ensures Reached(t) && t == Init(CFG).(tun := [1, 1], mem := Packets(map[], map[DevReader := [0, 1]]))
  {
    var s := ReachesOneRead();
    assert Line(s.mem, DevReader) + [1] == [0, 1];
    t := ReachesRead(s);
    assert t.mem.queues == map[DevReader := [0, 1]];
  }

  /** The router takes the first packet and finds that its peer has no connection. */
  lemma {:induction false} ReachesDial() returns (t: State)
    ensures Reached(t)
    ensures t == Init(CFG).(
              tun := [1, 1], mem := Packets(map[RouteWriter := Carry(0)], map[DevReader := [1]]), router := Dial("A"))
  {
    var s := ReachesTwoRead();
    var s1 := DoRouter(s, "A");
    var s2 := DoRouter(s1, "A");
    t := DoRouter(s2, "A");
    assert s1.mem == Packets(map[RouteWriter := Carry(0)], map[DevReader := [1]]) && s1.router == Route;
    assert s2 == s1.(router := Search);
    ReachesRoute(s);
    ReachesRoute(s1);
    ReachesRoute(s2);
  }

  /** It makes the channel and starts the connection. */
  lemma {:induction false} ReachesLaunch() returns (t: State)
    ensures Reached(t)
    ensures t == Init(CFG).(
              tun := [1, 1], addr := map[1 := 0], id := map["A" := 0], chans := [Chan("A", 1)], conns := [Connecting],
              mem := Packets(map[RouteWriter := Carry(0)], map[DevReader := [1]]), router := Forward(0))
  {
    var s := ReachesDial();
    var s1 := DoRouter(s, "A");
    var s2 := DoRouter(s1, "A");
    t := DoRouter(s2, "A");
    assert s1 == s.(addr := map[1 := 0], chans := [Chan("A", 1)], conns := [Unstarted], router := Register(0));
    assert s2 == s1.(id := map["A" := 0], router := Launch(0));
    ReachesRoute(s);
    ReachesRoute(s1);
    ReachesRoute(s2);
  }

  /** What the router makes for the peer. */
  ghost predicate Connected(s: State) {
    && s.cfg == CFG && s.addr == map[1 := 0] && s.id == map["A" := 0] && s.chans == [Chan("A", 1)]
    && s.conns == [Connecting] && s.handlers == [] && s.receivers == [] && s.wire == []
  }

  /** The first packet is in the channel. */
  lemma {:induction false} ReachesOneForwarded() returns (t: State)
    ensures Reached(t) && Connected(t) && t.router == Receive
    ensures t.mem == Packets(map[], map[DevReader := [1], Peer(0) := [0]])
  {
    var s := ReachesLaunch();
    t := DoRouter(s, "A");
    assert Line(s.mem, Peer(0)) + [0] == [0];
    assert t.mem.hands == map[] && t.mem.queues == map[DevReader := [1], Peer(0) := [0]];
    ReachesRoute(s);
  }

  /** Both packets are in the channel. */
  lemma {:induction false} ReachesForwarded() returns (t: State)
    ensures Reached(t) && Connected(t)
    ensures t.mem == Packets(map[], map[DevReader := [], Peer(0) := [0, 1]])
  {
    var s := ReachesSecond();
    t := DoRouter(s, "A");
    assert Line(s.mem, Peer(0)) + [1] == [0, 1];
    assert t.mem.hands == map[] && t.mem.queues == map[DevReader := [], Peer(0) := [0, 1]];
    ReachesRoute(s);
  }

  /** The router has the second packet in hand and knows its channel. */
  lemma {:induction false} ReachesSecond() returns (t: State)
    ensures Reached(t) && Connected(t) && t.router == Forward(0)
    ensures t.mem == Packets(map[RouteWriter := Carry(1)], map[DevReader := [], Peer(0) := [0]])
  {
    var s := ReachesOneForwarded();
    var s1 := DoRouter(s, "A");
    t := DoRouter(s1, "A");
    assert s1.mem.hands == map[RouteWriter := Carry(1)] && s1.mem.queues == map[DevReader := [], Peer(0) := [0]];
    assert t == s1.(router := Forward(0));
    ReachesRoute(s);
    ReachesRoute(s1);
  }

  /** The connection runs, a handler has found the channel, and each has taken a packet. */
  lemma {:induction false} ReachesBothSending() returns (t: State)
    ensures Reached(t) && t.wire == [] && t.chans == [Chan("A", 1)]
    ensures t.conns == [Running(Sending)] && t.handlers == [Handling(0, Sending)]
    ensures t.mem == Packets(map[Handler(0) := Carry(0), Conn(0) := Carry(1)], map[DevReader := [], Peer(0) := []])
  {
    var s := ReachesForwarded();
    var s1 := DoConn(s, 0, true);
    var s2 := DoInbound(s1, "A");
    var s3 := DoHandler(s2, 0, true);
    t := DoConn(s3, 0, true);
    assert s1.conns == [Running(Idle)] && s2.handlers == [Handling(0, Idle)];
    assert s3.mem == Packets(map[Handler(0) := Carry(0)], map[DevReader := [], Peer(0) := [1]]);
    assert t.mem.queues == map[DevReader := [], Peer(0) := []];
    ReachesConn(s);
    Reaches(s1, Inbound("A"));
    ReachesHandle(s2);
    ReachesConn(s3);
  }

  lemma {:induction false} WrittenPair(e: Sent, f: Sent)
    requires e.peer == f.peer
    ensures WrittenTo([e, f], e.peer) == [EntrySn(e), EntrySn(f)]
  {
    var of := To(e.peer);
    assert [e, f][..1] == [e] && [e][..0] == [];
    assert Written([], of) == [];
    assert Written([e], of) == [] + [EntrySn(e)];
    assert Written([e, f], of) == [EntrySn(e)] + [EntrySn(f)];
  }

  /** The handler has packet 0 and the connection packet 1; the connection writes first. */
  lemma {:induction false} HandlersLoseTheOrder()
    ensures exists acts :: WrittenTo(Run(CFG, acts).wire, "A") == [1, 0]
  {
    var s := ReachesBothSending();
    var s1 := DoConn(s, 0, true);
    var t := DoHandler(s1, 0, true);
    assert s1.wire == [Sent(Conn(0), "A", 1, Tun(1))];
    assert t.wire == [Sent(Conn(0), "A", 1, Tun(1)), Sent(Handler(0), "A", 1, Tun(0))];
    ReachesConn(s);
    ReachesHandle(s1);
    var acts :| Run(CFG, acts) == t;
    WrittenPair(Sent(Conn(0), "A", 1, Tun(1)), Sent(Handler(0), "A", 1, Tun(0)));
  }
}
