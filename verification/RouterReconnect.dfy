/** A run in which a connection dies and its successor writes the next packet to the same peer. */
module RouterReconnect {
  import opened PacketMem
  import opened Router
  import opened RouterPeers
  import opened RouterProgress
  import opened RouterHandlers

  lemma {:induction false} ReachesAgain(s: State, a: Action, n: nat)
    requires Reached(s)
    ensures Reached(Again(s, a, n))
    decreases n
  {
    if n > 0 {
      Reaches(s, a);
      ReachesAgain(Next(s, a), a, n - 1);
    }
  }

  /** The connection runs with the first packet in its channel; the second waits for the router. */
  lemma {:induction false} ReachesConnected() returns (s: State)
    ensures Reached(s) && s.cfg == CFG && s.router.Receive? && s.wire == []
    ensures s.chans == [Chan("A", 1)] && s.conns == [Running(Idle)]
    ensures s.mem == Packets(map[], map[DevReader := [1], Peer(0) := [0]])
  {
    var s0 := ReachesOneForwarded();
    s := DoConn(s0, 0, true);
    assert s.conns == [Running(Idle)] && s.mem == s0.mem;
    ReachesConn(s0);
  }

  lemma {:induction false} ReachesSuccessor(s: State) returns (t: State)
    requires Reached(s) && Reachable(s) && s.cfg == CFG && s.router.Receive? && s.wire == []
    requires s.chans == [Chan("A", 1)] && s.conns == [Running(Idle)]
    requires s.mem == Packets(map[], map[DevReader := [1], Peer(0) := [0]])
    ensures Reached(t) && t.conns == [Dead, Running(Freeing(true))] && t.wire == [Sent(Conn(1), "A", 1, Tun(1))]
  {
    assert DstOf(s.mem, 1) == 1 && DataOf(s.mem, 1) == Tun(1);
    t := SuccessorServes(s, 0);
    var u := Again(s, StepConn(0, false), 6);
    ReachesAgain(s, StepConn(0, false), 6);
    ReachesAgain(u, StepRouter("A"), 7);
    ReachesAgain(Again(u, StepRouter("A"), 7), StepConn(1, true), 3);
    assert t.conns == [Dead, Running(Freeing(true))];
  }

  lemma {:induction false} ReachedIsReachable(s: State)
    requires Reached(s)
    ensures Reachable(s)
  {
    var acts :| Run(CFG, acts) == s;
    RunReaches(CFG, acts);
  }

  /** The first write fails, the connection dies, and the second packet goes out on a new one. */
  lemma {:induction false} SuccessorWrites()
    ensures exists s ::
              Reached(s) && s.conns == [Dead, Running(Freeing(true))] && s.wire == [Sent(Conn(1), "A", 1, Tun(1))]
  {
    var s := ReachesConnected();
    ReachedIsReachable(s);
    var t := ReachesSuccessor(s);
  }
}
