/** The packet router as a machine: the goroutine that reads the TUN device, the router, the goroutine that writes
    the TUN device, one goroutine per outbound connection, a receiver per stream, and inbound stream handlers.
    Each step is one channel operation, one pool operation, one access to a route table, or one read or write of
    the network or the device, whose outcome the schedule supplies. */
module Router {
  import opened PacketMem

  type PeerId = string
  type ChanId = nat

  /** `routes` is routeTable.m, filled before the goroutines start; a channel holds at most `room` payloads. */
  datatype Config = Config(routes: map<PeerId, Addr>, groups: set<Addr>, broadcast: bool, room: nat)

  datatype Chan = Chan(peer: PeerId, dst: Addr)

  datatype ReaderPc = Fetch | Scan | ReturnRaw | Wrapping(dst: Addr) | Offer | ReaderFree | ReaderPut

  datatype RouterPc =
    | Receive | Route | Search
    | Dial(key: PeerId)
    | Register(c: ChanId)
    | Launch(c: ChanId)
    | Forward(c: ChanId)
    | RouterFree | RouterPut

  /** A loop that writes the payloads of one channel to a stream; `ok` is the result of the write. */
  datatype Drain = Idle | Sending | Freeing(ok: bool) | Putting(ok: bool)

  /** A connection goroutine: made, searching for its peer, draining its channel, and its deferred deletes. */
  datatype Life = Unstarted | Connecting | Running(drain: Drain) | DeleteAddr | DeleteId | Dead

  /** An inbound stream handler, which drains the channel it found under its peer. */
  datatype Handling = Handling(c: ChanId, drain: Drain)

  datatype ReceiverPc = Reading | Filling | Posting | Stopped

  datatype WriterPc = Await | Writing | WriterFree | WriterPut

  /** A payload written to a stream. */
  datatype Sent = Sent(sender: Worker, peer: PeerId, dst: Addr, what: Content)

  datatype State = State(
    cfg: Config, mem: Mem,
    addr: map<Addr, ChanId>, id: map<PeerId, ChanId>,     // the two route tables
    chans: seq<Chan>, conns: seq<Life>,                   // connection goroutine c drains channel c
    handlers: seq<Handling>, receivers: seq<ReceiverPc>,
    reader: ReaderPc, router: RouterPc, writer: WriterPc,
    tun: seq<Addr>,                                       // destinations of the packets read and kept, in order
    heard: nat,                                           // how many messages have been copied off the network
    wire: seq<Sent>,                                      // everything written to streams
    out: seq<Content>)                                    // everything written to the device

  /** What reading the device gives: an error, a packet that does not parse, or a packet. */
  datatype Packet = ReadError | Malformed | Good(dst: Addr)

  datatype Action =
    | StepReader(packet: Packet, pick: nat)
    | StepRouter(key: PeerId)
    | StepWriter
    | StepConn(c: ChanId, ok: bool)
    | StepHandler(i: nat, ok: bool)
    | StepReceiver(i: nat, ok: bool, pick: nat)
    | Inbound(peer: PeerId)

  function Init(cfg: Config): State {
    State(cfg, EMPTY, map[], map[], [], [], [], [], Fetch, Receive, Await, [], 0, [], [])
  }

  predicate Group(s: State, dst: Addr) {
    dst in s.cfg.groups
  }

  predicate HasRoom(s: State, q: Queue) {
    |Line(s.mem, q)| < s.cfg.room
  }

  /** The payload a worker has in hand. */
  function Mine(s: State, w: Worker): PayloadId {
    match PayloadIn(HandOf(s.mem, w))
    case Some(p) => p
    case None => 0
  }

  // ----- RoutineTUNReader

  function DoReader(s: State, packet: Packet, pick: nat): State {
    var w := TunReader;
    match s.reader
    case Fetch => s.(mem := GetBuffer(s.mem, w, pick), reader := Scan)
    case Scan =>
      (match packet
       case ReadError => s.(reader := ReturnRaw)
       case Malformed => s.(mem := Abandon(s.mem, w), reader := Fetch)
       case Good(dst) =>
         if Group(s, dst) && !s.cfg.broadcast then s.(mem := Abandon(s.mem, w), reader := Fetch)
         else s.(mem := Fill(s.mem, w, Tun(|s.tun|)), tun := s.tun + [dst], reader := Wrapping(dst)))
    case ReturnRaw => s.(mem := PutRaw(s.mem, w), reader := Fetch)
    case Wrapping(dst) => s.(mem := WrapBuffer(s.mem, w, pick, dst), reader := Offer)
    case Offer =>
      if HasRoom(s, DevReader) then s.(mem := Post(s.mem, w, DevReader), reader := Fetch)
      else s.(reader := ReaderFree)
    case ReaderFree => s.(mem := Strip(s.mem, w), reader := ReaderPut)
    case ReaderPut => s.(mem := PutPayload(s.mem, w), reader := Fetch)
  }

  // ----- RoutineRouteTableWriter and addConnByDst

  function DoRouter(s: State, key: PeerId): State {
    var w := RouteWriter;
    var dst := DstOf(s.mem, Mine(s, w));
    match s.router
    case Receive =>
      if Line(s.mem, DevReader) == [] then s
      else s.(mem := Pull(s.mem, w, DevReader), router := Route)
    case Route =>
      if Group(s, dst) && s.cfg.broadcast then s.(mem := Abandon(s.mem, w), router := Receive)
      else if dst in s.addr then s.(router := Forward(s.addr[dst]))
      else s.(router := Search)
    case Search =>
      if dst in s.addr then s.(router := Forward(s.addr[dst]))
      else if key in s.cfg.routes && s.cfg.routes[key] == dst then s.(router := Dial(key))
      else if forall k :: k in s.cfg.routes ==> s.cfg.routes[k] != dst then
        s.(mem := Abandon(s.mem, w), router := Receive)
      else s
    case Dial(k) =>
      if k in s.id then s.(router := Forward(s.id[k]))
      else
        var c := |s.chans|;
        s.(chans := s.chans + [Chan(k, dst)], conns := s.conns + [Unstarted],
           addr := s.addr[dst := c], router := Register(c))
    case Register(c) =>
      if c < |s.chans| then s.(id := s.id[s.chans[c].peer := c], router := Launch(c)) else s
    case Launch(c) =>
      if c < |s.conns| then s.(conns := s.conns[c := Connecting], router := Forward(c)) else s
    case Forward(c) =>
      if HasRoom(s, Peer(c)) then s.(mem := Post(s.mem, w, Peer(c)), router := Receive)
      else s.(router := RouterFree)
    case RouterFree => s.(mem := Strip(s.mem, w), router := RouterPut)
    case RouterPut => s.(mem := PutPayload(s.mem, w), router := Receive)
  }

  // ----- RoutineTUNWriter

  function DoWriter(s: State): State {
    var w := TunWriter;
    match s.writer
    case Await =>
      if Line(s.mem, DevWriter) == [] then s
      else s.(mem := Pull(s.mem, w, DevWriter), writer := Writing)
    case Writing => s.(out := s.out + [DataOf(s.mem, Mine(s, w))], writer := WriterFree)
    case WriterFree => s.(mem := Strip(s.mem, w), writer := WriterPut)
    case WriterPut => s.(mem := PutPayload(s.mem, w), writer := Await)
  }

  // ----- the drain loop of addConn and of VPNHandler

  function DrainMem(m: Mem, w: Worker, c: ChanId, d: Drain): Mem {
    match d
    case Idle => Pull(m, w, Peer(c))
    case Sending => m
    case Freeing(_) => Strip(m, w)
    case Putting(_) => PutPayload(m, w)
  }

  /** Where the loop goes next; it is left to the caller what follows a payload whose write failed. */
  function DrainNext(m: Mem, c: ChanId, d: Drain, ok: bool): Drain {
    match d
    case Idle => if Line(m, Peer(c)) == [] then Idle else Sending
    case Sending => Freeing(ok)
    case Freeing(sent) => Putting(sent)
    case Putting(_) => Idle
  }

  function DrainWire(s: State, w: Worker, c: ChanId, d: Drain, ok: bool): seq<Sent>
    requires c < |s.chans|
  {
    if d.Sending? && ok then
      s.wire + [Sent(w, s.chans[c].peer, DstOf(s.mem, Mine(s, w)), DataOf(s.mem, Mine(s, w)))]
    else s.wire
  }

  /** addConn, and the deferred deletes of the goroutine that runs it: first the address, then the peer. */
  function DoConn(s: State, c: ChanId, ok: bool): State
    requires c < |s.conns| && c < |s.chans|
  {
    match s.conns[c]
    case Unstarted => s
    case Connecting =>
      if ok then s.(conns := s.conns[c := Running(Idle)], receivers := s.receivers + [Reading])
      else s.(conns := s.conns[c := DeleteAddr])
    case Running(d) =>
      var life := if d == Putting(false) then DeleteAddr else Running(DrainNext(s.mem, c, d, ok));
      s.(mem := DrainMem(s.mem, Conn(c), c, d), wire := DrainWire(s, Conn(c), c, d, ok), conns := s.conns[c := life])
    case DeleteAddr => s.(addr := s.addr - {s.chans[c].dst}, conns := s.conns[c := DeleteId])
    case DeleteId => s.(id := s.id - {s.chans[c].peer}, conns := s.conns[c := Dead])
    case Dead => s
  }

  /** VPNHandler goes on after a failed write. */
  function DoHandler(s: State, i: nat, ok: bool): State
    requires i < |s.handlers| && s.handlers[i].c < |s.chans|
  {
    var h := s.handlers[i];
    s.(mem := DrainMem(s.mem, Handler(i), h.c, h.drain),
       wire := DrainWire(s, Handler(i), h.c, h.drain, ok),
       handlers := s.handlers[i := h.(drain := DrainNext(s.mem, h.c, h.drain, ok))])
  }

  /** The start of VPNHandler: an unknown peer, or one without a channel, is left alone. */
  function DoInbound(s: State, peer: PeerId): State {
    if peer in s.cfg.routes && peer in s.id then
      s.(handlers := s.handlers + [Handling(s.id[peer], Idle)], receivers := s.receivers + [Reading])
    else s
  }

  /** The goroutine that reads a stream: it takes a payload, then a buffer, and waits for room in devWriter. */
  function DoReceiver(s: State, i: nat, ok: bool, pick: nat): State
    requires i < |s.receivers|
  {
    var w := Receiver(i);
    match s.receivers[i]
    case Reading =>
      if ok then s.(mem := TakePayload(s.mem, w, pick), receivers := s.receivers[i := Filling])
      else s.(receivers := s.receivers[i := Stopped])
    case Filling =>
      s.(mem := AttachBuffer(s.mem, w, pick, Net(i, s.heard)), heard := s.heard + 1,
         receivers := s.receivers[i := Posting])
    case Posting =>
      if HasRoom(s, DevWriter) then s.(mem := Post(s.mem, w, DevWriter), receivers := s.receivers[i := Reading]) else s
    case Stopped => s
  }

  function Next(s: State, a: Action): State {
    match a
    case StepReader(packet, pick) => DoReader(s, packet, pick)
    case StepRouter(key) => DoRouter(s, key)
    case StepWriter => DoWriter(s)
    case StepConn(c, ok) => if c < |s.conns| && c < |s.chans| then DoConn(s, c, ok) else s
    case StepHandler(i, ok) => if i < |s.handlers| && s.handlers[i].c < |s.chans| then DoHandler(s, i, ok) else s
    case StepReceiver(i, ok, pick) => if i < |s.receivers| then DoReceiver(s, i, ok, pick) else s
    case Inbound(peer) => DoInbound(s, peer)
  }

  function Run(cfg: Config, acts: seq<Action>): State {
    if acts == [] then Init(cfg) else Next(Run(cfg, acts[..|acts| - 1]), acts[|acts| - 1])
  }
}
