/** What each goroutine of the router has in hand at each point of its code, and what each step moves. */
module RouterMemory {
  import opened Basics
  import opened PacketMem
  import opened Router

  datatype Grip = Nothing | Bare | Whole | Empty

  function GripOf(h: Option<Hand>): Grip {
    match h
    case None => Nothing
    case Some(Raw(_)) => Bare
    case Some(Carry(_)) => Whole
    case Some(Stripped(_)) => Empty
  }

  function DrainGrip(d: Drain): Grip {
    match d
    case Idle => Nothing
    case Sending => Whole
    case Freeing(_) => Whole
    case Putting(_) => Empty
  }

  /** What worker `w` has in hand at its place in the code. */
  function Needs(s: State, w: Worker): Grip {
    match w
    case TunReader =>
      (match s.reader
       case Fetch => Nothing
       case Offer => Whole
       case ReaderFree => Whole
       case ReaderPut => Empty
       case _ => Bare)
    case RouteWriter => if s.router.Receive? then Nothing else if s.router.RouterPut? then Empty else Whole
    case TunWriter => if s.writer.Await? then Nothing else if s.writer.WriterPut? then Empty else Whole
    case Conn(c) => if c < |s.conns| && s.conns[c].Running? then DrainGrip(s.conns[c].drain) else Nothing
    case Handler(i) => if i < |s.handlers| then DrainGrip(s.handlers[i].drain) else Nothing
    case Receiver(i) =>
      if i < |s.receivers| && s.receivers[i].Filling? then Empty
      else if i < |s.receivers| && s.receivers[i].Posting? then Whole
      else Nothing
  }

  ghost predicate HandsOk(s: State) {
    forall w :: GripOf(HandOf(s.mem, w)) == Needs(s, w)
  }

  /** Single ownership of every payload and every buffer. */
  ghost predicate Owned(m: Mem) {
    exists at :: Own(m, at)
  }

  /** What a raw buffer in hand holds. */
  function RawContent(m: Mem, w: Worker): Content {
    match HandOf(m, w)
    case Some(Raw(b)) => if b < |m.buffers| then m.buffers[b] else Blank
    case _ => Blank
  }

  // ----- what a step moves

  datatype Effect = Quiet | Takes(q: Queue) | Gives(q: Queue) | Wraps | Attaches

  function MoverOf(a: Action): Worker {
    match a
    case StepReader(_, _) => TunReader
    case StepRouter(_) => RouteWriter
    case StepWriter => TunWriter
    case StepConn(c, _) => Conn(c)
    case StepHandler(i, _) => Handler(i)
    case StepReceiver(i, _, _) => Receiver(i)
    case Inbound(_) => RouteWriter
  }

  function EffectOf(s: State, a: Action): Effect {
    match a
    case StepReader(_, _) =>
      if s.reader.Wrapping? then Wraps
      else if s.reader.Offer? && HasRoom(s, DevReader) then Gives(DevReader)
      else Quiet
    case StepRouter(_) =>
      if s.router.Receive? && Line(s.mem, DevReader) != [] then Takes(DevReader)
      else if s.router.Forward? && HasRoom(s, Peer(s.router.c)) then Gives(Peer(s.router.c))
      else Quiet
    case StepWriter => if s.writer.Await? && Line(s.mem, DevWriter) != [] then Takes(DevWriter) else Quiet
    case StepConn(c, _) =>
      if c < |s.conns| && c < |s.chans| && s.conns[c] == Running(Idle) && Line(s.mem, Peer(c)) != [] then Takes(Peer(c))
      else Quiet
    case StepHandler(i, _) =>
      if i < |s.handlers| && s.handlers[i].c < |s.chans| && s.handlers[i].drain.Idle?
         && Line(s.mem, Peer(s.handlers[i].c)) != []
      then Takes(Peer(s.handlers[i].c))
      else Quiet
    case StepReceiver(i, _, _) =>
      if i < |s.receivers| && s.receivers[i].Filling? then Attaches
      else if i < |s.receivers| && s.receivers[i].Posting? && HasRoom(s, DevWriter) then Gives(DevWriter)
      else Quiet
    case Inbound(_) => Quiet
  }

  /** No payload starts to be in flight, and no channel changes. */
  ghost predicate QuietMem(m: Mem, t: Mem, w: Worker) {
    && OnlyHand(m, t, w) && SameInFlight(m, t, Lost)
    && (HandOf(t, w).Some? && HandOf(t, w).value.Carry? ==> HandOf(t, w) == HandOf(m, w))
  }

  /** Worker `w` takes the first payload of channel `q`. */
  ghost predicate TakesMem(m: Mem, t: Mem, w: Worker, q: Queue) {
    && Line(m, q) != [] && SameInFlight(m, t, Lost)
    && HandOf(t, w) == Some(Carry(Line(m, q)[0])) && (forall v :: v != w ==> HandOf(t, v) == HandOf(m, v))
    && (forall r :: Line(t, r) == if r == q then Line(m, q)[1..] else Line(m, r))
  }

  /** Worker `w` appends the payload it has in hand to channel `q`. */
  ghost predicate GivesMem(m: Mem, t: Mem, w: Worker, q: Queue) {
    && SameInFlight(m, t, Lost) && HandOf(m, w).Some? && HandOf(m, w).value.Carry?
    && HandOf(t, w).None? && (forall v :: v != w ==> HandOf(t, v) == HandOf(m, v))
    && (forall r :: Line(t, r) == if r == q then Line(m, q) + [HandOf(m, w).value.p] else Line(m, r))
  }

  /** Worker `w` comes to carry a payload with contents `what`. */
  ghost predicate MakesMem(m: Mem, t: Mem, w: Worker, what: Content) {
    && SameInFlight(m, t, With(w)) && OnlyHand(m, t, w)
    && HandOf(t, w).Some? && HandOf(t, w).value.Carry? && DataOf(t, HandOf(t, w).value.p) == what
  }

  ghost predicate EffectMem(s: State, t: State, a: Action) {
    var w := MoverOf(a);
    match EffectOf(s, a)
    case Quiet => QuietMem(s.mem, t.mem, w)
    case Takes(q) => TakesMem(s.mem, t.mem, w, q)
    case Gives(q) => GivesMem(s.mem, t.mem, w, q)
    case Wraps =>
      && s.reader.Wrapping? && MakesMem(s.mem, t.mem, w, RawContent(s.mem, w))
      && DstOf(t.mem, HandOf(t.mem, w).value.p) == s.reader.dst
    case Attaches => a.StepReceiver? && MakesMem(s.mem, t.mem, w, Net(a.i, s.heard))
  }

  /** After the step nothing is in two places, the payloads have moved as the effect of the step says, and the
      worker's hand fits its new place in the code. */
  ghost predicate StepMem(s: State, t: State, a: Action) {
    && Owned(t.mem) && EffectMem(s, t, a) && GripOf(HandOf(t.mem, MoverOf(a))) == Needs(t, MoverOf(a))
    && (MoverOf(a) != TunReader ==> RawContent(t.mem, TunReader) == RawContent(s.mem, TunReader))
  }

  lemma {:induction false} HandsFit(s: State, t: State, a: Action)
    requires HandsOk(s) && StepMem(s, t, a)
    requires forall v :: v != MoverOf(a) ==> Needs(t, v) == Needs(s, v)
    ensures HandsOk(t)
  {
    forall v ensures GripOf(HandOf(t.mem, v)) == Needs(t, v) {
      if v != MoverOf(a) { assert GripOf(HandOf(s.mem, v)) == Needs(s, v) && HandOf(t.mem, v) == HandOf(s.mem, v); }
    }
  }

  /** No step moves another goroutine on. */
  lemma {:induction false} OthersStay(s: State, a: Action, v: Worker)
    requires |s.conns| == |s.chans| && v != MoverOf(a)
    requires s.router.Launch? ==> s.router.c < |s.conns| && s.conns[s.router.c].Unstarted?
    ensures Needs(Next(s, a), v) == Needs(s, v)
  {
    var t := Next(s, a);
    match a {
      case StepReader(packet, pick) => OneFieldStays(s, t, v);
      case StepRouter(key) => RouterOthersStay(s, key, v);
      case StepWriter => OneFieldStays(s, t, v);
      case StepConn(c, ok) => if c < |s.conns| { ConnOthersStay(s, c, ok, v); }
      case StepHandler(i, ok) => HandlerOthersStay(s, i, ok, v);
      case StepReceiver(i, ok, pick) => ReceiverOthersStay(s, i, ok, pick, v);
      case Inbound(peer) => InboundOthersStay(s, peer, v);
    }
  }

  lemma {:induction false} OneFieldStays(s: State, t: State, v: Worker)
    requires t.handlers == s.handlers && t.receivers == s.receivers && (v.Conn? ==> t.conns == s.conns)
    requires v.TunReader? ==> t.reader == s.reader
    requires v.RouteWriter? ==> t.router == s.router
    requires v.TunWriter? ==> t.writer == s.writer
    ensures Needs(t, v) == Needs(s, v)
  {
  }

  lemma {:induction false} RouterOthersStay(s: State, key: PeerId, v: Worker)
    requires |s.conns| == |s.chans| && v != RouteWriter
    requires s.router.Launch? ==> s.router.c < |s.conns| && s.conns[s.router.c].Unstarted?
    ensures Needs(DoRouter(s, key), v) == Needs(s, v)
  {
    var t := DoRouter(s, key);
    if v.Conn? { LaunchStarts(s, key); } else { OneFieldStays(s, t, v); }
  }

  /** The router only adds connections, or starts one that it has added. */
  lemma {:induction false} LaunchStarts(s: State, key: PeerId)
    requires s.router.Launch? ==> s.router.c < |s.conns|
    ensures var t := DoRouter(s, key);
            if s.router.Launch? then t.conns == s.conns[s.router.c := Connecting]
            else t.conns == s.conns || t.conns == s.conns + [Unstarted]
  {
  }

  lemma {:induction false} ConnOthersStay(s: State, c: ChanId, ok: bool, v: Worker)
    requires c < |s.conns| == |s.chans| && v != Conn(c)
    ensures Needs(DoConn(s, c, ok), v) == Needs(s, v)
  {
    var t := DoConn(s, c, ok);
    assert t.handlers == s.handlers && t.router == s.router && t.reader == s.reader && t.writer == s.writer;
    assert t.conns == s.conns[c := t.conns[c]];
    assert t.receivers == s.receivers || t.receivers == s.receivers + [Reading];
  }

  lemma {:induction false} HandlerOthersStay(s: State, i: nat, ok: bool, v: Worker)
    requires v != Handler(i)
    ensures Needs(Next(s, StepHandler(i, ok)), v) == Needs(s, v)
  {
    var t := Next(s, StepHandler(i, ok));
    assert t.conns == s.conns && t.receivers == s.receivers && t.router == s.router;
    assert t.reader == s.reader && t.writer == s.writer;
  }

  lemma {:induction false} ReceiverOthersStay(s: State, i: nat, ok: bool, pick: nat, v: Worker)
    requires v != Receiver(i)
    ensures Needs(Next(s, StepReceiver(i, ok, pick)), v) == Needs(s, v)
  {
    var t := Next(s, StepReceiver(i, ok, pick));
    assert t.conns == s.conns && t.handlers == s.handlers && t.router == s.router;
    assert t.reader == s.reader && t.writer == s.writer;
  }

  lemma {:induction false} InboundOthersStay(s: State, peer: PeerId, v: Worker)
    ensures Needs(DoInbound(s, peer), v) == Needs(s, v)
  {
  }

  /** Leaving the memory alone is quiet. */
  lemma {:induction false} StillMem(m: Mem, w: Worker)
    ensures QuietMem(m, m, w)
  {
  }

  lemma {:induction false} AbandonQuiet(m: Mem, w: Worker)
    requires Owned(m)
    ensures Owned(Abandon(m, w)) && QuietMem(m, Abandon(m, w), w) && HandOf(Abandon(m, w), w).None?
  {
    var at :| Own(m, at);
    var at' := AbandonOwns(m, at, w);
  }

  lemma {:induction false} StripQuiet(m: Mem, w: Worker)
    requires Owned(m) && GripOf(HandOf(m, w)) == Whole
    ensures Owned(Strip(m, w)) && QuietMem(m, Strip(m, w), w) && GripOf(HandOf(Strip(m, w), w)) == Empty
  {
    var at :| Own(m, at);
    var at' := StripOwns(m, at, w);
  }

  lemma {:induction false} PutPayloadQuiet(m: Mem, w: Worker)
    requires Owned(m) && GripOf(HandOf(m, w)) == Empty
    ensures Owned(PutPayload(m, w)) && QuietMem(m, PutPayload(m, w), w) && HandOf(PutPayload(m, w), w).None?
  {
    var at :| Own(m, at);
    var at' := PutPayloadOwns(m, at, w);
  }

  lemma {:induction false} PullTakes(m: Mem, w: Worker, q: Queue)
    requires Owned(m) && HandOf(m, w).None? && Line(m, q) != []
    ensures Owned(Pull(m, w, q)) && TakesMem(m, Pull(m, w, q), w, q)
  {
    var at :| Own(m, at);
    var at' := PullOwns(m, at, w, q);
  }

  lemma {:induction false} PostGives(m: Mem, w: Worker, q: Queue)
    requires Owned(m) && GripOf(HandOf(m, w)) == Whole
    ensures Owned(Post(m, w, q)) && GivesMem(m, Post(m, w, q), w, q)
  {
    var at :| Own(m, at);
    var at' := PostOwns(m, at, w, q);
  }

  // ----- every step

  /** Filling the buffer, or putting the payload around it. */
  lemma {:induction false} FilledMem(s: State, packet: Packet, pick: nat)
    requires Owned(s.mem) && HandsOk(s) && (s.reader.Wrapping? || s.reader.Scan?)
    ensures StepMem(s, DoReader(s, packet, pick), StepReader(packet, pick))
  {
    var w := TunReader;
    var at :| Own(s.mem, at);
    assert GripOf(HandOf(s.mem, w)) == Needs(s, w);
    if s.reader.Wrapping? {
      var at', p := WrapBufferOwns(s.mem, at, w, pick, s.reader.dst);
    } else {
      AbandonQuiet(s.mem, w);
      FillOwns(s.mem, at, w, Tun(|s.tun|));
    }
  }

  lemma {:induction false} ReaderMem(s: State, packet: Packet, pick: nat)
    requires Owned(s.mem) && HandsOk(s)
    ensures StepMem(s, DoReader(s, packet, pick), StepReader(packet, pick))
  {
    var w := TunReader;
    var at :| Own(s.mem, at);
    assert GripOf(HandOf(s.mem, w)) == Needs(s, w);
    match s.reader {
      case Fetch => var at' := GetBufferOwns(s.mem, at, w, pick);
      case ReturnRaw => var at' := PutRawOwns(s.mem, at, w);
      case Offer => if HasRoom(s, DevReader) { PostGives(s.mem, w, DevReader); }
      case ReaderFree => StripQuiet(s.mem, w);
      case ReaderPut => PutPayloadQuiet(s.mem, w);
      case _ => FilledMem(s, packet, pick);
    }
  }

  /** The steps that find, or make, the payload's channel; they forget the payload at most. */
  lemma {:induction false} FindChannelMem(s: State, key: PeerId)
    requires Owned(s.mem) && HandsOk(s)
    requires s.router.Route? || s.router.Search? || s.router.Dial? || s.router.Register? || s.router.Launch?
    ensures StepMem(s, DoRouter(s, key), StepRouter(key))
  {
    var t, w := DoRouter(s, key), RouteWriter;
    assert GripOf(HandOf(s.mem, w)) == Needs(s, w);
    AbandonsAtMost(s, key);
    if t.mem == s.mem && !t.router.Receive? { StillMem(s.mem, w); } else { AbandonQuiet(s.mem, w); }
  }

  lemma {:induction false} AbandonsAtMost(s: State, key: PeerId)
    requires s.router.Route? || s.router.Search? || s.router.Dial? || s.router.Register? || s.router.Launch?
    ensures var t := DoRouter(s, key);
            && !t.router.RouterPut?
            && (if t.router.Receive? then t.mem == Abandon(s.mem, RouteWriter) else t.mem == s.mem)
  {
  }

  lemma {:induction false} RouterMem(s: State, key: PeerId)
    requires Owned(s.mem) && HandsOk(s)
    ensures StepMem(s, DoRouter(s, key), StepRouter(key))
  {
    var t, w := DoRouter(s, key), RouteWriter;
    assert GripOf(HandOf(s.mem, w)) == Needs(s, w);
    match s.router {
      case Receive => if Line(s.mem, DevReader) != [] { PullTakes(s.mem, w, DevReader); }
      case Forward(c) => if HasRoom(s, Peer(c)) { PostGives(s.mem, w, Peer(c)); }
      case RouterFree => StripQuiet(s.mem, w);
      case RouterPut => PutPayloadQuiet(s.mem, w);
      case _ => FindChannelMem(s, key);
    }
  }

  lemma {:induction false} WriterMem(s: State)
    requires Owned(s.mem) && HandsOk(s)
    ensures StepMem(s, DoWriter(s), StepWriter)
  {
    var t, w := DoWriter(s), TunWriter;
    assert GripOf(HandOf(s.mem, w)) == Needs(s, w);
    match s.writer {
      case Await => if Line(s.mem, DevWriter) != [] { PullTakes(s.mem, w, DevWriter); }
      case Writing =>
      case WriterFree => StripQuiet(s.mem, w);
      case WriterPut => PutPayloadQuiet(s.mem, w);
    }
  }

  /** One round of a drain loop. */
  lemma {:induction false} DrainMoves(m: Mem, w: Worker, c: ChanId, d: Drain, ok: bool)
    requires Owned(m) && GripOf(HandOf(m, w)) == DrainGrip(d)
    ensures var t := DrainMem(m, w, c, d);
            && Owned(t) && GripOf(HandOf(t, w)) == DrainGrip(DrainNext(m, c, d, ok))
            && (if d.Idle? && Line(m, Peer(c)) != [] then TakesMem(m, t, w, Peer(c)) else QuietMem(m, t, w))
            && t.buffers == m.buffers
  {
    match d {
      case Idle => if Line(m, Peer(c)) != [] { PullTakes(m, w, Peer(c)); }
      case Sending =>
      case Freeing(_) => StripQuiet(m, w);
      case Putting(_) => PutPayloadQuiet(m, w);
    }
  }

  lemma {:induction false} ConnMem(s: State, c: ChanId, ok: bool)
    requires Owned(s.mem) && HandsOk(s) && c < |s.conns| == |s.chans|
    ensures StepMem(s, DoConn(s, c, ok), StepConn(c, ok))
  {
    var t, w := DoConn(s, c, ok), Conn(c);
    assert GripOf(HandOf(s.mem, w)) == Needs(s, w);
    if s.conns[c].Running? {
      var d := s.conns[c].drain;
      assert t.mem == DrainMem(s.mem, w, c, d);
      assert Needs(t, w) == DrainGrip(DrainNext(s.mem, c, d, ok));
      DrainMoves(s.mem, w, c, d, ok);
    } else {
      assert t.mem == s.mem && Needs(t, w) == Nothing;
      StillMem(s.mem, w);
    }
  }

  lemma {:induction false} HandlerMem(s: State, i: nat, ok: bool)
    requires Owned(s.mem) && HandsOk(s) && i < |s.handlers| && s.handlers[i].c < |s.chans|
    ensures StepMem(s, DoHandler(s, i, ok), StepHandler(i, ok))
  {
    var t, w := DoHandler(s, i, ok), Handler(i);
    assert GripOf(HandOf(s.mem, w)) == Needs(s, w);
    DrainMoves(s.mem, w, s.handlers[i].c, s.handlers[i].drain, ok);
  }

  lemma {:induction false} RawIsNotFree(m: Mem, ofB: seq<BufferPlace>, v: Worker, b: BufferId)
    requires BuffersPlaced(m, ofB) && HandOf(m, v) == Some(Raw(b))
    ensures b < |m.buffers| && b !in m.freeB
  {
    assert BufferIsAt(m, b, RawWith(v));
    assert b in m.freeB ==> BufferIsAt(m, b, FreeBuffer);
  }

  /** Filling a buffer that was free or new leaves the buffer in another worker's hand alone. */
  lemma {:induction false} AttachLeavesRaw(m: Mem, ofB: seq<BufferPlace>, w: Worker, pick: BufferId, what: Content,
                                           v: Worker)
    requires BuffersPlaced(m, ofB) && v != w
    ensures RawContent(AttachBuffer(m, w, pick, what), v) == RawContent(m, v)
  {
    var h := HandOf(m, v);
    if h.Some? && h.value.Raw? { RawIsNotFree(m, ofB, v, h.value.b); }
  }

  lemma {:induction false} ReceiverMem(s: State, i: nat, ok: bool, pick: nat)
    requires Owned(s.mem) && HandsOk(s) && i < |s.receivers|
    ensures StepMem(s, DoReceiver(s, i, ok, pick), StepReceiver(i, ok, pick))
  {
    var t, w := DoReceiver(s, i, ok, pick), Receiver(i);
    var at :| Own(s.mem, at);
    assert GripOf(HandOf(s.mem, w)) == Needs(s, w);
    match s.receivers[i] {
      case Reading => if ok { var at' := TakePayloadOwns(s.mem, at, w, pick); }
      case Filling =>
        var at' := AttachBufferOwns(s.mem, at, w, pick, Net(i, s.heard));
        AttachLeavesRaw(s.mem, at.ofB, w, pick, Net(i, s.heard), TunReader);
      case Posting => if HasRoom(s, DevWriter) { PostGives(s.mem, w, DevWriter); }
      case Stopped =>
    }
  }

  lemma {:induction false} NextMem(s: State, a: Action)
    requires Owned(s.mem) && HandsOk(s) && |s.conns| == |s.chans|
    requires s.router.Launch? ==> s.router.c < |s.conns| && s.conns[s.router.c].Unstarted?
    ensures StepMem(s, Next(s, a), a) && HandsOk(Next(s, a))
  {
    var t := Next(s, a);
    match a {
      case StepReader(packet, pick) => ReaderMem(s, packet, pick);
      case StepRouter(key) => RouterMem(s, key);
      case StepWriter => WriterMem(s);
      case StepConn(c, ok) => if c < |s.conns| { ConnMem(s, c, ok); }
      case StepHandler(i, ok) => if i < |s.handlers| && s.handlers[i].c < |s.chans| { HandlerMem(s, i, ok); }
      case StepReceiver(i, ok, pick) => if i < |s.receivers| { ReceiverMem(s, i, ok, pick); }
      case Inbound(peer) => assert GripOf(HandOf(s.mem, RouteWriter)) == Needs(s, RouteWriter);
    }
    forall v | v != MoverOf(a) ensures Needs(t, v) == Needs(s, v) { OthersStay(s, a, v); }
    HandsFit(s, t, a);
  }
}
