/** From every reachable state in which two packets for a peer race, a few steps write them in the wrong order. */
module RouterRaces {
  import opened Basics
  import opened PacketMem
  import opened Router
  import opened RouterMemory
  import opened RouterTables
  import opened RouterSafety
  import opened RouterOrder
  import opened RouterPeers

  // ----- going on from a state

  function RunOn(s: State, more: seq<Action>): State {
    Fold(Next, s, more)
  }

  lemma {:induction false} RunIsFold(cfg: Config, acts: seq<Action>)
    ensures Run(cfg, acts) == RunOn(Init(cfg), acts)
  {
    if acts != [] { RunIsFold(cfg, acts[..|acts| - 1]); }
  }

  lemma {:induction false} RunGoesOn(cfg: Config, acts: seq<Action>, more: seq<Action>)
    ensures Run(cfg, acts + more) == RunOn(Run(cfg, acts), more)
  {
    RunIsFold(cfg, acts);
    RunIsFold(cfg, acts + more);
    FoldJoins(Next, Init(cfg), acts, more);
  }

  lemma {:induction false} OnJoins(s: State, a: seq<Action>, b: seq<Action>)
    ensures RunOn(s, a + b) == RunOn(RunOn(s, a), b)
  {
    FoldJoins(Next, s, a, b);
  }

  lemma {:induction false} OneOn(s: State, a: Action)
    ensures RunOn(s, [a]) == Next(s, a)
  {
    FoldMore(Next, s, [], a);
    assert [] + [a] == [a];
  }

  lemma {:induction false} OnReaches(s: State, more: seq<Action>)
    requires Reachable(s)
    ensures Reachable(RunOn(s, more))
  {
    if more != [] {
      OnReaches(s, more[..|more| - 1]);
      ReachableKept(RunOn(s, more[..|more| - 1]), more[|more| - 1]);
    }
  }

  // ----- two goroutines about to write

  /** The write of what the goroutine has in hand succeeds. */
  function WriteOf(w: Worker): Action {
    match w
    case Conn(c) => StepConn(c, true)
    case Handler(i) => StepHandler(i, true)
    case _ => StepWriter
  }

  lemma {:induction false} WritesOne(s: State, peer: PeerId, w: Worker) returns (e: Sent)
    requires TablesOk(s) && Holds(s, peer, w)
    ensures var t := Next(s, WriteOf(w)); t.mem == s.mem && t.wire == s.wire + [e]
    ensures e.peer == peer && e.what == DataOf(s.mem, Mine(s, w))
    ensures forall v :: v != w && Holds(s, peer, v) ==> Holds(Next(s, WriteOf(w)), peer, v)
  {
    e := Sent(w, peer, DstOf(s.mem, Mine(s, w)), DataOf(s.mem, Mine(s, w)));
    match w {
      case Conn(c) => assert Next(s, WriteOf(w)) == DoConn(s, c, true);
      case Handler(i) => assert Next(s, WriteOf(w)) == DoHandler(s, i, true);
    }
  }

  lemma {:induction false} WrittenMore(wire: seq<Sent>, e: Sent, peer: PeerId)
    requires e.peer == peer
    ensures WrittenTo(wire + [e], peer) == WrittenTo(wire, peer) + [EntrySn(e)]
  {
    assert (wire + [e])[..|wire|] == wire;
  }

  lemma {:induction false} HoldersDiffer(s: State, peer: PeerId, w: Worker, w': Worker)
    requires Inv(s) && DifferentPackets(s) && Holds(s, peer, w) && Holds(s, peer, w') && w != w'
    ensures DataOf(s.mem, Mine(s, w)).Tun? && DataOf(s.mem, Mine(s, w')).Tun?
    ensures SnOf(s.mem, Mine(s, w)) != SnOf(s.mem, Mine(s, w'))
  {
    var p, p' := Mine(s, w), Mine(s, w');
    assert GripOf(HandOf(s.mem, w)) == Needs(s, w) == Whole && GripOf(HandOf(s.mem, w')) == Needs(s, w') == Whole;
    assert InFlight(s.mem, p, With(w)) && InFlight(s.mem, p', With(w'));
    assert Fits(s, With(w), DstOf(s.mem, p), DataOf(s.mem, p));
    assert Fits(s, With(w'), DstOf(s.mem, p'), DataOf(s.mem, p'));
    var at :| Own(s.mem, at);
    assert IsAt(s.mem, p, With(w)) && IsAt(s.mem, p', With(w'));
  }

  /** The later packet is written first. */
  lemma {:induction false} LaterFirst(s: State, peer: PeerId, w: Worker, w': Worker)
    requires Reachable(s) && Holds(s, peer, w) && Holds(s, peer, w') && w != w'
    requires SnOf(s.mem, Mine(s, w)) > SnOf(s.mem, Mine(s, w'))
    ensures !Increasing(WrittenTo(RunOn(s, [WriteOf(w), WriteOf(w')]).wire, peer))
  {
    HoldersDiffer(s, peer, w, w');
    var t := Next(s, WriteOf(w));
    var e := WritesOne(s, peer, w);
    ReachableKept(s, WriteOf(w));
    var e' := WritesOne(t, peer, w');
    OneOn(s, WriteOf(w));
    OneOn(t, WriteOf(w'));
    OnJoins(s, [WriteOf(w)], [WriteOf(w')]);
    assert [WriteOf(w)] + [WriteOf(w')] == [WriteOf(w), WriteOf(w')];
    WrittenMore(s.wire, e, peer);
    WrittenMore(t.wire, e', peer);
    var sns := WrittenTo(Next(t, WriteOf(w')).wire, peer);
    assert sns[|sns| - 2] > sns[|sns| - 1];
  }

  lemma {:induction false} TwoHolders(s: State, peer: PeerId, w: Worker, w': Worker) returns (more: seq<Action>)
    requires Reachable(s) && Holds(s, peer, w) && Holds(s, peer, w') && w != w'
    ensures |more| == 2 && !Increasing(WrittenTo(RunOn(s, more).wire, peer))
  {
    HoldersDiffer(s, peer, w, w');
    if SnOf(s.mem, Mine(s, w)) > SnOf(s.mem, Mine(s, w')) {
      more := [WriteOf(w), WriteOf(w')];
      LaterFirst(s, peer, w, w');
    } else {
      more := [WriteOf(w'), WriteOf(w)];
      LaterFirst(s, peer, w', w);
    }
  }

  // ----- a handler takes the first packet that waits in a channel

  /** Nothing has happened but to the handlers of channel `c`, and to what they take. */
  ghost predicate OnlyAt(s: State, t: State, c: ChanId) {
    && t.chans == s.chans && t.conns == s.conns && t.id == s.id && t.wire == s.wire
    && |s.handlers| <= |t.handlers|
    && (forall i :: 0 <= i < |s.handlers| ==>
          t.handlers[i].c == s.handlers[i].c && (s.handlers[i].c != c ==> t.handlers[i] == s.handlers[i]))
    && (forall d :: d != c ==> Line(t.mem, Peer(d)) == Line(s.mem, Peer(d)))
  }

  lemma {:induction false} OthersHold(s: State, t: State, c: ChanId, peer: PeerId, v: Worker)
    requires OnlyAt(s, t, c) && Holds(s, peer, v) && ChannelOf(s, v) != Some(c)
    ensures Holds(t, peer, v) && ChannelOf(t, v) == ChannelOf(s, v)
  {
  }

  lemma {:induction false} StillDrained(s: State, t: State, c: ChanId, peer: PeerId, d: ChanId)
    requires OnlyAt(s, t, c) && Drained(s, peer, d)
    ensures Drained(t, peer, d)
  {
    if HasHandler(s, d) {
      var i :| 0 <= i < |s.handlers| && s.handlers[i].c == d;
      assert t.handlers[i].c == d;
    }
  }

  function ToGo(d: Drain): nat {
    match d
    case Sending => 0
    case Idle => 1
    case Putting(_) => 2
    case Freeing(_) => 3
  }

  lemma {:induction false} HandlerGoesOn(s: State, i: nat)
    requires Inv(s) && i < |s.handlers| && Line(s.mem, Peer(s.handlers[i].c)) != [] && !s.handlers[i].drain.Sending?
    ensures var t, c := Next(s, StepHandler(i, true)), s.handlers[i].c;
            && OnlyAt(s, t, c) && ToGo(t.handlers[i].drain) == ToGo(s.handlers[i].drain) - 1
            && (!t.handlers[i].drain.Sending? ==> Line(t.mem, Peer(c)) == Line(s.mem, Peer(c)))
  {
    NextMem(s, StepHandler(i, true));
    assert Next(s, StepHandler(i, true)) == DoHandler(s, i, true);
  }

  lemma {:induction false} HandlerTakes(s: State, i: nat) returns (more: seq<Action>)
    requires Reachable(s) && i < |s.handlers| && Line(s.mem, Peer(s.handlers[i].c)) != []
    ensures var t := RunOn(s, more);
            && |more| == ToGo(s.handlers[i].drain) && Reachable(t)
            && OnlyAt(s, t, s.handlers[i].c) && t.handlers[i].drain.Sending?
    decreases ToGo(s.handlers[i].drain)
  {
    if s.handlers[i].drain.Sending? {
      more := [];
    } else {
      var a := StepHandler(i, true);
      var t := Next(s, a);
      HandlerGoesOn(s, i);
      ReachableKept(s, a);
      OneOn(s, a);
      if t.handlers[i].drain.Sending? {
        more := [a];
      } else {
        var rest := HandlerTakes(t, i);
        more := [a] + rest;
        OnJoins(s, [a], rest);
      }
    }
  }

  /** A new handler finds the channel under its peer. */
  lemma {:induction false} HandlerComes(s: State, peer: PeerId, c: ChanId)
    requires Reachable(s) && c < |s.chans| && s.chans[c].peer == peer && peer in s.id && s.id[peer] == c
    ensures var t := Next(s, Inbound(peer));
            Reachable(t) && OnlyAt(s, t, c) && t.mem == s.mem && t.handlers == s.handlers + [Handling(c, Idle)]
  {
    assert ConnOk(s, c);
    ReachableKept(s, Inbound(peer));
  }

  lemma {:induction false} SomeoneTakes(s: State, peer: PeerId, c: ChanId) returns (more: seq<Action>, i: nat)
    requires Reachable(s) && Drained(s, peer, c) && Line(s.mem, Peer(c)) != []
    ensures var t := RunOn(s, more);
            && |more| <= 3 && Reachable(t) && OnlyAt(s, t, c)
            && Holds(t, peer, Handler(i)) && ChannelOf(t, Handler(i)) == Some(c)
  {
    if HasHandler(s, c) {
      i :| 0 <= i < |s.handlers| && s.handlers[i].c == c;
      more := HandlerTakes(s, i);
    } else {
      var t := Next(s, Inbound(peer));
      HandlerComes(s, peer, c);
      i := |s.handlers|;
      var rest := HandlerTakes(t, i);
      more := [Inbound(peer)] + rest;
      OneOn(s, Inbound(peer));
      OnJoins(s, [Inbound(peer)], rest);
    }
  }

  // ----- every race can be lost

  /** One goroutine is about to write, and another channel of the peer has something in it. */
  lemma {:induction false} HolderAndChannel(s: State, peer: PeerId, w: Worker, c: ChanId) returns (more: seq<Action>)
    requires Reachable(s) && Holds(s, peer, w) && ChannelOf(s, w) != Some(c)
    requires Drained(s, peer, c) && Line(s.mem, Peer(c)) != []
    ensures |more| <= 5 && !Increasing(WrittenTo(RunOn(s, more).wire, peer))
  {
    var first, i := SomeoneTakes(s, peer, c);
    var t := RunOn(s, first);
    OthersHold(s, t, c, peer, w);
    var rest := TwoHolders(t, peer, w, Handler(i));
    more := first + rest;
    OnJoins(s, first, rest);
  }

  lemma {:induction false} TwoChannels(s: State, peer: PeerId, c: ChanId, d: ChanId) returns (more: seq<Action>)
    requires Reachable(s) && c != d && Drained(s, peer, c) && Drained(s, peer, d)
    requires Line(s.mem, Peer(c)) != [] && Line(s.mem, Peer(d)) != []
    ensures |more| <= 8 && !Increasing(WrittenTo(RunOn(s, more).wire, peer))
  {
    var first, i := SomeoneTakes(s, peer, c);
    var t := RunOn(s, first);
    StillDrained(s, t, c, peer, d);
    var rest := HolderAndChannel(t, peer, Handler(i), d);
    more := first + rest;
    OnJoins(s, first, rest);
  }

  lemma {:induction false} RaceIsLost(s: State, peer: PeerId) returns (more: seq<Action>)
    requires Reachable(s) && Racing(s, peer)
    ensures |more| <= 8 && !Increasing(WrittenTo(RunOn(s, more).wire, peer))
  {
    var p: PayloadId, x, p': PayloadId, y :| Races(s, peer, p, x, p', y);
    if x.With? {
      if y.With? { more := TwoHolders(s, peer, x.w, y.w); } else { more := HolderAndChannel(s, peer, x.w, y.q.c); }
    } else {
      if y.With? { more := HolderAndChannel(s, peer, y.w, x.q.c); } else { more := TwoChannels(s, peer, x.q.c, y.q.c); }
    }
  }

  /** From every state that a run can reach in which packets for the peer race, at most eight more steps write to the
      peer out of order. */
  lemma {:induction false} RacesLoseTheOrder(cfg: Config, acts: seq<Action>, peer: PeerId) returns (more: seq<Action>)
    requires Racing(Run(cfg, acts), peer)
    ensures |more| <= 8 && !Increasing(WrittenTo(Run(cfg, acts + more).wire, peer))
  {
    RunReaches(cfg, acts);
    more := RaceIsLost(Run(cfg, acts), peer);
    RunGoesOn(cfg, acts, more);
  }

  ghost predicate RaceFree(cfg: Config, peer: PeerId) {
    forall acts :: !Racing(Run(cfg, acts), peer)
  }

  ghost predicate OrderSafe(cfg: Config, peer: PeerId) {
    forall acts :: Increasing(WrittenTo(Run(cfg, acts).wire, peer))
  }

  /** Every run keeps the order of the peer's packets if and only if no run meets a race for the peer. */
  lemma {:induction false} OrderIsSafeExactlyWithoutRaces(cfg: Config, peer: PeerId)
    ensures OrderSafe(cfg, peer) <==> RaceFree(cfg, peer)
  {
    if RaceFree(cfg, peer) { RaceFreeIsSafe(cfg, peer); }
    if !RaceFree(cfg, peer) { RaceIsUnsafe(cfg, peer); }
  }

  lemma {:induction false} RaceFreeIsSafe(cfg: Config, peer: PeerId)
    requires RaceFree(cfg, peer)
    ensures OrderSafe(cfg, peer)
  {
    forall acts ensures Increasing(WrittenTo(Run(cfg, acts).wire, peer)) {
      OrderKeptWithoutRaces(cfg, acts, peer);
    }
  }

  lemma {:induction false} RaceIsUnsafe(cfg: Config, peer: PeerId)
    requires !RaceFree(cfg, peer)
    ensures !OrderSafe(cfg, peer)
  {
    var acts :| Racing(Run(cfg, acts), peer);
    var more := RacesLoseTheOrder(cfg, acts, peer);
  }
}
