/** The memory of the packet router: payload objects and data buffers, the two free pools, the bounded channels,
    and what each goroutine has in hand.  The goroutines handle payloads only through the operations below. */
module PacketMem {
  import opened Basics

  type PayloadId = nat
  type BufferId = nat
  type Addr = nat

  /** What a buffer holds: a TUN packet, by its place in the sequence of packets read, or the `n`-th message to be
      copied off the network, from the stream of receiver `from`. */
  datatype Content = Blank | Tun(sn: nat) | Net(from: nat, n: nat)

  datatype Payload = Payload(dst: Addr, data: BufferId)

  datatype Worker = TunReader | RouteWriter | TunWriter | Conn(c: nat) | Handler(i: nat) | Receiver(i: nat)

  datatype Queue = DevReader | DevWriter | Peer(c: nat)

  /** A buffer alone; a payload with its buffer; or a payload whose `Data` is not, or no longer, its own. */
  datatype Hand = Raw(b: BufferId) | Carry(p: PayloadId) | Stripped(p: PayloadId)

  datatype Mem = Mem(
    payloads: seq<Payload>, freeP: set<PayloadId>,
    buffers: seq<Content>, freeB: set<BufferId>,
    hands: map<Worker, Hand>,
    queues: map<Queue, seq<PayloadId>>)

  const EMPTY: Mem := Mem([], {}, [], {}, map[], map[])

  function Line(m: Mem, q: Queue): seq<PayloadId> {
    if q in m.queues then m.queues[q] else []
  }

  function HandOf(m: Mem, w: Worker): Option<Hand> {
    if w in m.hands then Some(m.hands[w]) else None
  }

  /** What the buffer of payload `p` holds. */
  function DataOf(m: Mem, p: PayloadId): Content {
    if p < |m.payloads| && m.payloads[p].data < |m.buffers| then m.buffers[m.payloads[p].data] else Blank
  }

  /** The buffer that payload `p` points to. */
  function BufferOf(m: Mem, p: PayloadId): Option<BufferId> {
    if p < |m.payloads| then Some(m.payloads[p].data) else None
  }

  function DstOf(m: Mem, p: PayloadId): Addr {
    if p < |m.payloads| then m.payloads[p].dst else 0
  }

  function Hold(m: Mem, w: Worker, h: Hand): Mem {
    m.(hands := m.hands[w := h])
  }

  function LetGo(m: Mem, w: Worker): Mem {
    m.(hands := m.hands - {w})
  }

  // ----- the operations; each needs the hand that its caller has at that point

  /** bufferPool.Get: buffer `pick` if it is free, otherwise a new one. */
  function GetBuffer(m: Mem, w: Worker, pick: BufferId): Mem {
    if pick in m.freeB then Hold(m.(freeB := m.freeB - {pick}), w, Raw(pick))
    else Hold(m.(buffers := m.buffers + [Blank]), w, Raw(|m.buffers|))
  }

  /** Writing into the buffer in hand. */
  function Fill(m: Mem, w: Worker, what: Content): Mem {
    match HandOf(m, w)
    case Some(Raw(b)) => if b < |m.buffers| then m.(buffers := m.buffers[b := what]) else m
    case _ => m
  }

  /** bufferPool.Put of a buffer that no payload has. */
  function PutRaw(m: Mem, w: Worker): Mem {
    match HandOf(m, w)
    case Some(Raw(b)) => LetGo(m.(freeB := m.freeB + {b}), w)
    case _ => m
  }

  /** payloadPool.Get, with the fields that are then assigned. */
  function WrapBuffer(m: Mem, w: Worker, pick: PayloadId, dst: Addr): Mem {
    match HandOf(m, w)
    case Some(Raw(b)) =>
      if pick in m.freeP && pick < |m.payloads| then
        Hold(m.(freeP := m.freeP - {pick}, payloads := m.payloads[pick := Payload(dst, b)]), w, Carry(pick))
      else
        Hold(m.(payloads := m.payloads + [Payload(dst, b)]), w, Carry(|m.payloads|))
    case _ => m
  }

  /** payloadPool.Get: the payload keeps the stale fields of its last use. */
  function TakePayload(m: Mem, w: Worker, pick: PayloadId): Mem {
    if pick in m.freeP then Hold(m.(freeP := m.freeP - {pick}), w, Stripped(pick))
    else Hold(m.(payloads := m.payloads + [Payload(0, 0)]), w, Stripped(|m.payloads|))
  }

  /** bufferPool.Get into the payload in hand, and copying a message into the buffer. */
  function AttachBuffer(m: Mem, w: Worker, pick: BufferId, what: Content): Mem {
    match HandOf(m, w)
    case Some(Stripped(p)) =>
      if p >= |m.payloads| then m
      else if pick in m.freeB && pick < |m.buffers| then
        Hold(m.(freeB := m.freeB - {pick}, buffers := m.buffers[pick := what],
                payloads := m.payloads[p := m.payloads[p].(data := pick)]), w, Carry(p))
      else
        Hold(m.(buffers := m.buffers + [what],
                payloads := m.payloads[p := m.payloads[p].(data := |m.buffers|)]), w, Carry(p))
    case _ => m
  }

  /** bufferPool.Put(payload.Data): the payload keeps a stale pointer to the buffer. */
  function Strip(m: Mem, w: Worker): Mem {
    match HandOf(m, w)
    case Some(Carry(p)) =>
      if p < |m.payloads| then Hold(m.(freeB := m.freeB + {m.payloads[p].data}), w, Stripped(p)) else m
    case _ => m
  }

  /** payloadPool.Put(payload) */
  function PutPayload(m: Mem, w: Worker): Mem {
    match HandOf(m, w)
    case Some(Stripped(p)) => LetGo(m.(freeP := m.freeP + {p}), w)
    case _ => m
  }

  /** Sending the payload in hand to a channel. */
  function Post(m: Mem, w: Worker, q: Queue): Mem {
    match HandOf(m, w)
    case Some(Carry(p)) => LetGo(m.(queues := m.queues[q := Line(m, q) + [p]]), w)
    case _ => m
  }

  /** Receiving from a channel. */
  function Pull(m: Mem, w: Worker, q: Queue): Mem {
    if Line(m, q) == [] then m
    else Hold(m.(queues := m.queues[q := Line(m, q)[1..]]), w, Carry(Line(m, q)[0]))
  }

  /** A `continue` that forgets what is in hand. */
  function Abandon(m: Mem, w: Worker): Mem {
    LetGo(m, w)
  }

  // ----- single ownership

  datatype Place = Free | In(q: Queue) | With(w: Worker) | Lost

  datatype BufferPlace = FreeBuffer | Under(p: PayloadId) | RawWith(w: Worker) | LostBuffer

  /** Where every payload and every buffer is. */
  datatype Places = Places(ofP: seq<Place>, ofB: seq<BufferPlace>)

  ghost predicate NoDuplicates(s: seq<PayloadId>) {
    forall i, j :: 0 <= i < j < |s| ==> s[i] != s[j]
  }

  function PayloadIn(h: Option<Hand>): Option<PayloadId> {
    match h
    case Some(Carry(p)) => Some(p)
    case Some(Stripped(p)) => Some(p)
    case _ => None
  }

  /** Is payload `p` at this place?  A lost payload is nowhere. */
  ghost predicate IsAt(m: Mem, p: PayloadId, at: Place) {
    match at
    case Free => p in m.freeP
    case In(q) => p in Line(m, q)
    case With(w) => PayloadIn(HandOf(m, w)) == Some(p)
    case Lost => false
  }

  ghost predicate BufferIsAt(m: Mem, b: BufferId, at: BufferPlace) {
    match at
    case FreeBuffer => b in m.freeB
    case RawWith(w) => HandOf(m, w) == Some(Raw(b))
    case _ => false
  }

  /** Every payload is in exactly the place given, once. */
  ghost predicate PayloadsPlaced(m: Mem, ofP: seq<Place>) {
    && |ofP| == |m.payloads|
    && (forall p: PayloadId, x :: IsAt(m, p, x) ==> p < |ofP| && ofP[p] == x)
    && (forall p: PayloadId :: p < |ofP| && ofP[p] != Lost ==> IsAt(m, p, ofP[p]))
    && (forall q :: NoDuplicates(Line(m, q)))
  }

  /** No buffer is in two places. */
  ghost predicate BuffersPlaced(m: Mem, ofB: seq<BufferPlace>) {
    && |ofB| == |m.buffers|
    && forall b: BufferId, x :: BufferIsAt(m, b, x) ==> b < |ofB| && ofB[b] == x
  }

  /** The payload's `Data` is its own: no other payload, pool or hand has that buffer. */
  ghost predicate Attached(m: Mem, ofB: seq<BufferPlace>, p: PayloadId) {
    p < |m.payloads| && m.payloads[p].data < |ofB| && ofB[m.payloads[p].data] == Under(p)
  }

  /** In a channel, or carried with its buffer. */
  ghost predicate InFlight(m: Mem, p: PayloadId, x: Place) {
    IsAt(m, p, x) && (x.In? || (x.With? && HandOf(m, x.w) == Some(Carry(p))))
  }

  /** Single ownership; a payload in flight has its buffer to itself. */
  ghost predicate Own(m: Mem, at: Places) {
    && PayloadsPlaced(m, at.ofP)
    && BuffersPlaced(m, at.ofB)
    && forall p: PayloadId, x :: InFlight(m, p, x) ==> Attached(m, at.ofB, p)
  }

  /** No two payloads in flight share a buffer, and none of their buffers is free or in a hand. */
  lemma {:induction false} BuffersAreNotShared(m: Mem, at: Places, p: PayloadId, x: Place, p': PayloadId, x': Place)
    requires Own(m, at) && InFlight(m, p, x) && InFlight(m, p', x') && p != p'
    ensures BufferOf(m, p).Some? && BufferOf(m, p) != BufferOf(m, p')
  {
    assert Attached(m, at.ofB, p) && Attached(m, at.ofB, p');
  }

  // ----- proof rules: what an operation moves

  /** Hands other than that of `w`, and all channels and free payloads, are as before. */
  ghost predicate OnlyHand(m: Mem, t: Mem, w: Worker) {
    && (forall v :: v != w ==> HandOf(t, v) == HandOf(m, v))
    && (forall q :: Line(t, q) == Line(m, q))
  }

  lemma {:induction false} PayloadsStay(m: Mem, t: Mem, ofP: seq<Place>)
    requires PayloadsPlaced(m, ofP) && |t.payloads| == |m.payloads|
    requires t.freeP == m.freeP && (forall q :: Line(t, q) == Line(m, q))
    requires forall v :: PayloadIn(HandOf(t, v)) == PayloadIn(HandOf(m, v))
    ensures PayloadsPlaced(t, ofP)
  {
    forall p: PayloadId, x ensures IsAt(t, p, x) == IsAt(m, p, x) {
    }
  }

  /** Payload `p` moves from `from`, or from nowhere when it is new, to `to`. */
  lemma {:induction false} PayloadMoves(m: Mem, t: Mem, ofP: seq<Place>, p: PayloadId, from: Place, to: Place)
    requires PayloadsPlaced(m, ofP) && |m.payloads| <= |t.payloads| <= |m.payloads| + 1 && p < |t.payloads|
    requires |t.payloads| == |m.payloads| + 1 ==> p == |m.payloads|
    requires forall p': PayloadId, x :: p' != p ==> (IsAt(t, p', x) <==> IsAt(m, p', x))
    requires p < |ofP| ==> IsAt(m, p, from)
    requires forall x :: IsAt(t, p, x) && x != to ==> IsAt(m, p, x) && x != from
    requires to == Lost || IsAt(t, p, to)
    requires forall q :: NoDuplicates(Line(t, q))
    ensures PayloadsPlaced(t, if p < |ofP| then ofP[p := to] else ofP + [to])
  {
    var of' := if p < |ofP| then ofP[p := to] else ofP + [to];
    forall p': PayloadId, x | IsAt(t, p', x) ensures p' < |of'| && of'[p'] == x {
      if p' != p || x != to { assert IsAt(m, p', x); }
    }
    forall p': PayloadId | p' < |of'| && of'[p'] != Lost ensures IsAt(t, p', of'[p']) {
      if p' != p { assert IsAt(m, p', ofP[p']); }
    }
  }

  /** Buffer `b` moves from `from`, or from nowhere when it is new, to `to`; all others stay. */
  lemma {:induction false} BufferMoves(m: Mem, t: Mem, ofB: seq<BufferPlace>, b: BufferId,
                                       from: BufferPlace, to: BufferPlace)
    requires BuffersPlaced(m, ofB) && |m.buffers| <= |t.buffers| <= |m.buffers| + 1 && b < |t.buffers|
    requires |t.buffers| == |m.buffers| + 1 ==> b == |m.buffers|
    requires forall b': BufferId, x :: b' != b && BufferIsAt(t, b', x) ==> BufferIsAt(m, b', x)
    requires b < |ofB| ==> ofB[b] == from
    requires forall x :: BufferIsAt(t, b, x) && x != to ==> BufferIsAt(m, b, x) && x != from
    ensures BuffersPlaced(t, if b < |ofB| then ofB[b := to] else ofB + [to])
  {
    var of' := if b < |ofB| then ofB[b := to] else ofB + [to];
    forall b': BufferId, x | BufferIsAt(t, b', x) ensures b' < |of'| && of'[b'] == x {
      if b' != b || x != to { assert BufferIsAt(m, b', x); }
    }
  }

  // ----- every operation keeps single ownership, and no packet in flight changes under it

  /** Payload `p` has the same destination and its buffer the same contents. */
  ghost predicate Same(m: Mem, t: Mem, p: PayloadId) {
    DataOf(t, p) == DataOf(m, p) && DstOf(t, p) == DstOf(m, p)
  }

  /** Every packet in flight in `t`, other than one at `x0`, is as it was in `m`. */
  ghost predicate SameInFlight(m: Mem, t: Mem, x0: Place) {
    forall p: PayloadId, x :: InFlight(t, p, x) && x != x0 ==> Same(m, t, p)
  }

  lemma {:induction false} GetBufferOwns(m: Mem, at: Places, w: Worker, pick: BufferId) returns (at': Places)
    requires Own(m, at) && HandOf(m, w).None?
    ensures var t := GetBuffer(m, w, pick);
            && Own(t, at') && SameInFlight(m, t, Lost) && OnlyHand(m, t, w)
            && HandOf(t, w).Some? && HandOf(t, w).value.Raw?
  {
    var t, b := GetBuffer(m, w, pick), if pick in m.freeB then pick else |m.buffers|;
    assert OnlyHand(m, t, w) && HandOf(t, w) == Some(Raw(b));
    assert pick in m.freeB ==> BufferIsAt(m, pick, FreeBuffer);
    assert !BufferIsAt(m, |m.buffers|, FreeBuffer);
    PayloadsStay(m, t, at.ofP);
    BufferMoves(m, t, at.ofB, b, FreeBuffer, RawWith(w));
    at' := at.(ofB := if b < |at.ofB| then at.ofB[b := RawWith(w)] else at.ofB + [RawWith(w)]);
    forall p: PayloadId, x | InFlight(t, p, x) ensures Attached(t, at'.ofB, p) && Same(m, t, p) {
      assert InFlight(m, p, x) && Attached(m, at.ofB, p);
    }
  }

  lemma {:induction false} FillOwns(m: Mem, at: Places, w: Worker, what: Content)
    requires Own(m, at)
    ensures var t := Fill(m, w, what);
            && Own(t, at) && SameInFlight(m, t, Lost) && OnlyHand(m, t, w) && HandOf(t, w) == HandOf(m, w)
            && (HandOf(m, w).Some? && HandOf(m, w).value.Raw? ==>
                  HandOf(m, w).value.b < |t.buffers| && t.buffers[HandOf(m, w).value.b] == what)
  {
    var t := Fill(m, w, what);
    assert OnlyHand(m, t, w) && HandOf(t, w) == HandOf(m, w);
    PayloadsStay(m, t, at.ofP);
    forall b: BufferId, x | BufferIsAt(t, b, x) ensures BufferIsAt(m, b, x) {
    }
    if HandOf(m, w).Some? && HandOf(m, w).value.Raw? { assert BufferIsAt(m, HandOf(m, w).value.b, RawWith(w)); }
    forall p: PayloadId, x | InFlight(t, p, x) ensures Attached(t, at.ofB, p) && Same(m, t, p) {
      assert InFlight(m, p, x) && Attached(m, at.ofB, p);
    }
  }

  lemma {:induction false} PutRawOwns(m: Mem, at: Places, w: Worker) returns (at': Places)
    requires Own(m, at) && HandOf(m, w).Some? && HandOf(m, w).value.Raw?
    ensures var t := PutRaw(m, w);
            Own(t, at') && SameInFlight(m, t, Lost) && OnlyHand(m, t, w) && HandOf(t, w).None?
  {
    var t, b := PutRaw(m, w), HandOf(m, w).value.b;
    assert OnlyHand(m, t, w) && HandOf(t, w) == None;
    assert BufferIsAt(m, b, RawWith(w));
    PayloadsStay(m, t, at.ofP);
    BufferMoves(m, t, at.ofB, b, RawWith(w), FreeBuffer);
    at' := at.(ofB := at.ofB[b := FreeBuffer]);
    forall p: PayloadId, x | InFlight(t, p, x) ensures Attached(t, at'.ofB, p) && Same(m, t, p) {
      assert InFlight(m, p, x) && Attached(m, at.ofB, p);
    }
  }

  lemma {:induction false} WrapBufferOwns(m: Mem, at: Places, w: Worker, pick: PayloadId, dst: Addr)
    returns (at': Places, p: PayloadId)
    requires Own(m, at) && HandOf(m, w).Some? && HandOf(m, w).value.Raw?
    ensures var t := WrapBuffer(m, w, pick, dst);
            && Own(t, at') && SameInFlight(m, t, With(w)) && OnlyHand(m, t, w) && HandOf(t, w) == Some(Carry(p))
            && HandOf(m, w).value.b < |m.buffers|
            && DstOf(t, p) == dst && DataOf(t, p) == m.buffers[HandOf(m, w).value.b]
            && (forall x :: !IsAt(m, p, x) || x == Free)
  {
    var t, b := WrapBuffer(m, w, pick, dst), HandOf(m, w).value.b;
    assert BufferIsAt(m, b, RawWith(w));
    assert pick in m.freeP ==> IsAt(m, pick, Free);
    assert !IsAt(m, |m.payloads|, Free);
    p := if pick in m.freeP then pick else |m.payloads|;
    assert OnlyHand(m, t, w) && HandOf(t, w) == Some(Carry(p));
    PayloadMoves(m, t, at.ofP, p, Free, With(w));
    BufferMoves(m, t, at.ofB, b, RawWith(w), Under(p));
    at' := Places(if p < |at.ofP| then at.ofP[p := With(w)] else at.ofP + [With(w)], at.ofB[b := Under(p)]);
    forall p': PayloadId, x | InFlight(t, p', x)
      ensures Attached(t, at'.ofB, p') && (x != With(w) ==> Same(m, t, p'))
    {
      if p' != p { assert InFlight(m, p', x) && Attached(m, at.ofB, p'); }
    }
  }

  lemma {:induction false} TakePayloadOwns(m: Mem, at: Places, w: Worker, pick: PayloadId) returns (at': Places)
    requires Own(m, at) && HandOf(m, w).None?
    ensures var t := TakePayload(m, w, pick);
            && Own(t, at') && SameInFlight(m, t, Lost) && OnlyHand(m, t, w)
            && HandOf(t, w).Some? && HandOf(t, w).value.Stripped?
  {
    var t, p := TakePayload(m, w, pick), if pick in m.freeP then pick else |m.payloads|;
    assert pick in m.freeP ==> IsAt(m, pick, Free);
    assert !IsAt(m, |m.payloads|, Free);
    assert OnlyHand(m, t, w) && HandOf(t, w) == Some(Stripped(p));
    PayloadMoves(m, t, at.ofP, p, Free, With(w));
    at' := at.(ofP := if p < |at.ofP| then at.ofP[p := With(w)] else at.ofP + [With(w)]);
    forall b: BufferId, x | BufferIsAt(t, b, x) ensures BufferIsAt(m, b, x) {
    }
    forall p': PayloadId, x | InFlight(t, p', x) ensures Attached(t, at'.ofB, p') && Same(m, t, p') {
      assert InFlight(m, p', x) && Attached(m, at.ofB, p');
    }
  }

  lemma {:induction false} AttachBufferOwns(m: Mem, at: Places, w: Worker, pick: BufferId, what: Content)
    returns (at': Places)
    requires Own(m, at) && HandOf(m, w).Some? && HandOf(m, w).value.Stripped?
    ensures var t := AttachBuffer(m, w, pick, what);
            && Own(t, at') && SameInFlight(m, t, With(w)) && OnlyHand(m, t, w)
            && HandOf(t, w) == Some(Carry(HandOf(m, w).value.p)) && DataOf(t, HandOf(m, w).value.p) == what
  {
    var t, p := AttachBuffer(m, w, pick, what), HandOf(m, w).value.p;
    assert IsAt(m, p, With(w));
    assert pick in m.freeB ==> BufferIsAt(m, pick, FreeBuffer);
    var b := if pick in m.freeB then pick else |m.buffers|;
    assert OnlyHand(m, t, w) && HandOf(t, w) == Some(Carry(p));
    PayloadsStay(m, t, at.ofP);
    BufferMoves(m, t, at.ofB, b, FreeBuffer, Under(p));
    at' := at.(ofB := if b < |at.ofB| then at.ofB[b := Under(p)] else at.ofB + [Under(p)]);
    forall p': PayloadId, x | InFlight(t, p', x)
      ensures Attached(t, at'.ofB, p') && (x != With(w) ==> Same(m, t, p'))
    {
      if p' != p { assert InFlight(m, p', x) && Attached(m, at.ofB, p'); }
      else { assert IsAt(t, p', With(w)) && IsAt(t, p', x); }
    }
  }

  lemma {:induction false} StripOwns(m: Mem, at: Places, w: Worker) returns (at': Places)
    requires Own(m, at) && HandOf(m, w).Some? && HandOf(m, w).value.Carry?
    ensures var t := Strip(m, w);
            && Own(t, at') && SameInFlight(m, t, Lost) && OnlyHand(m, t, w)
            && HandOf(t, w) == Some(Stripped(HandOf(m, w).value.p))
  {
    var t, p := Strip(m, w), HandOf(m, w).value.p;
    assert InFlight(m, p, With(w)) && Attached(m, at.ofB, p);
    var b := m.payloads[p].data;
    assert OnlyHand(m, t, w) && HandOf(t, w) == Some(Stripped(p));
    PayloadsStay(m, t, at.ofP);
    BufferMoves(m, t, at.ofB, b, Under(p), FreeBuffer);
    at' := at.(ofB := at.ofB[b := FreeBuffer]);
    forall p': PayloadId, x | InFlight(t, p', x) ensures Attached(t, at'.ofB, p') && Same(m, t, p') {
      assert IsAt(m, p, With(w)) && InFlight(m, p', x) && Attached(m, at.ofB, p');
    }
  }

  lemma {:induction false} PutPayloadOwns(m: Mem, at: Places, w: Worker) returns (at': Places)
    requires Own(m, at) && HandOf(m, w).Some? && HandOf(m, w).value.Stripped?
    ensures var t := PutPayload(m, w);
            Own(t, at') && SameInFlight(m, t, Lost) && OnlyHand(m, t, w) && HandOf(t, w).None?
  {
    var t, p := PutPayload(m, w), HandOf(m, w).value.p;
    assert IsAt(m, p, With(w));
    assert OnlyHand(m, t, w) && HandOf(t, w) == None;
    PayloadMoves(m, t, at.ofP, p, With(w), Free);
    at' := at.(ofP := at.ofP[p := Free]);
    forall b: BufferId, x | BufferIsAt(t, b, x) ensures BufferIsAt(m, b, x) {
    }
    forall p': PayloadId, x | InFlight(t, p', x) ensures Attached(t, at'.ofB, p') && Same(m, t, p') {
      assert InFlight(m, p', x) && Attached(m, at.ofB, p');
    }
  }

  lemma {:induction false} PostOwns(m: Mem, at: Places, w: Worker, q: Queue) returns (at': Places)
    requires Own(m, at) && HandOf(m, w).Some? && HandOf(m, w).value.Carry?
    ensures var t := Post(m, w, q); Own(t, at') && SameInFlight(m, t, Lost)
    ensures var t := Post(m, w, q);
            && HandOf(t, w).None? && (forall v :: v != w ==> HandOf(t, v) == HandOf(m, v))
            && (forall r :: Line(t, r) == if r == q then Line(m, q) + [HandOf(m, w).value.p] else Line(m, r))
  {
    var t, p := Post(m, w, q), HandOf(m, w).value.p;
    assert IsAt(m, p, With(w)) && InFlight(m, p, With(w));
    assert !IsAt(m, p, In(q));
    assert forall v :: HandOf(t, v) == if v == w then None else HandOf(m, v);
    assert forall r :: Line(t, r) == if r == q then Line(m, q) + [p] else Line(m, r);
    PayloadMoves(m, t, at.ofP, p, With(w), In(q));
    at' := at.(ofP := at.ofP[p := In(q)]);
    forall b: BufferId, x | BufferIsAt(t, b, x) ensures BufferIsAt(m, b, x) {
    }
    forall p': PayloadId, x | InFlight(t, p', x) ensures Attached(t, at'.ofB, p') && Same(m, t, p') {
      if p' == p { assert Attached(m, at.ofB, p); } else { assert InFlight(m, p', x) && Attached(m, at.ofB, p'); }
    }
  }

  lemma {:induction false} PullOwns(m: Mem, at: Places, w: Worker, q: Queue) returns (at': Places)
    requires Own(m, at) && HandOf(m, w).None? && Line(m, q) != []
    ensures var t := Pull(m, w, q); Own(t, at') && SameInFlight(m, t, Lost)
    ensures var t := Pull(m, w, q);
            && HandOf(t, w) == Some(Carry(Line(m, q)[0])) && (forall v :: v != w ==> HandOf(t, v) == HandOf(m, v))
            && (forall r :: Line(t, r) == if r == q then Line(m, q)[1..] else Line(m, r))
  {
    var t, p := Pull(m, w, q), Line(m, q)[0];
    assert IsAt(m, p, In(q)) && InFlight(m, p, In(q));
    assert forall v :: HandOf(t, v) == if v == w then Some(Carry(p)) else HandOf(m, v);
    assert forall r :: Line(t, r) == if r == q then Line(m, q)[1..] else Line(m, r);
    forall p': PayloadId, x | p' != p ensures IsAt(t, p', x) <==> IsAt(m, p', x) {
      if x == In(q) { assert Line(m, q) == [p] + Line(m, q)[1..]; }
    }
    PayloadMoves(m, t, at.ofP, p, In(q), With(w));
    at' := at.(ofP := at.ofP[p := With(w)]);
    forall b: BufferId, x | BufferIsAt(t, b, x) ensures BufferIsAt(m, b, x) {
    }
    forall p': PayloadId, x | InFlight(t, p', x) ensures Attached(t, at'.ofB, p') && Same(m, t, p') {
      if p' == p { assert Attached(m, at.ofB, p); } else { assert InFlight(m, p', x) && Attached(m, at.ofB, p'); }
    }
  }

  lemma {:induction false} AbandonOwns(m: Mem, at: Places, w: Worker) returns (at': Places)
    requires Own(m, at)
    ensures var t := Abandon(m, w);
            Own(t, at') && SameInFlight(m, t, Lost) && OnlyHand(m, t, w) && HandOf(t, w).None?
  {
    var t, p := Abandon(m, w), PayloadIn(HandOf(m, w));
    assert OnlyHand(m, t, w) && HandOf(t, w) == None;
    at' := at;
    if p.Some? {
      assert IsAt(m, p.value, With(w));
      PayloadMoves(m, t, at.ofP, p.value, With(w), Lost);
      at' := at.(ofP := at.ofP[p.value := Lost]);
    } else {
      PayloadsStay(m, t, at.ofP);
    }
    forall b: BufferId, x | BufferIsAt(t, b, x) ensures BufferIsAt(m, b, x) {
    }
    forall p': PayloadId, x | InFlight(t, p', x) ensures Attached(t, at'.ofB, p') && Same(m, t, p') {
      assert InFlight(m, p', x) && Attached(m, at.ofB, p');
    }
  }
}
