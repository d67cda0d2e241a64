/** The two route tables of the router and the life of its connection goroutines. */
module RouterTables {
  import opened PacketMem
  import opened Router

  /** The goroutine has still to delete its address. */
  predicate BeforeDeleteAddr(l: Life) {
    l.Unstarted? || l.Connecting? || l.Running? || l.DeleteAddr?
  }

  /** The goroutine has been started and has still to delete its peer. */
  predicate Live(l: Life) {
    l.Connecting? || l.Running? || l.DeleteAddr? || l.DeleteId?
  }

  /** The destination of the payload that the router has in hand. */
  function RouterDst(s: State): Addr {
    DstOf(s.mem, Mine(s, RouteWriter))
  }

  /** Connection `c` and the table entries: it has its own while it has not deleted them. */
  ghost predicate ConnOk(s: State, c: ChanId)
    requires c < |s.conns| == |s.chans|
  {
    var life, ch := s.conns[c], s.chans[c];
    && ch.peer in s.cfg.routes && s.cfg.routes[ch.peer] == ch.dst
    && (BeforeDeleteAddr(life) ==> ch.dst in s.addr && s.addr[ch.dst] == c)
    && (Live(life) || s.router == Launch(c) ==> ch.peer in s.id && s.id[ch.peer] == c)
    && (life.Unstarted? ==> s.router == Register(c) || s.router == Launch(c))
  }

  /** What the router knows in the middle of addConnByDst. */
  ghost predicate RouterOk(s: State)
    requires |s.conns| == |s.chans|
  {
    match s.router
    case Dial(k) =>
      && k in s.cfg.routes && s.cfg.routes[k] == RouterDst(s)
      && (forall c :: 0 <= c < |s.chans| && s.chans[c].dst == RouterDst(s) ==> !BeforeDeleteAddr(s.conns[c]))
    case Register(c) =>
      c < |s.chans| && s.conns[c].Unstarted? && s.chans[c].peer !in s.id && s.chans[c].dst == RouterDst(s)
    case Launch(c) =>
      c < |s.chans| && s.conns[c].Unstarted? && s.chans[c].dst == RouterDst(s)
    case Forward(c) => c < |s.chans| && s.chans[c].dst == RouterDst(s)
    case _ => true
  }

  ghost predicate TablesOk(s: State) {
    && |s.conns| == |s.chans|
    && (forall c :: 0 <= c < |s.chans| ==> ConnOk(s, c))
    && (forall a :: a in s.addr ==> s.addr[a] < |s.chans| && s.chans[s.addr[a]].dst == a
                                    && BeforeDeleteAddr(s.conns[s.addr[a]]))
    && (forall k :: k in s.id ==> s.id[k] < |s.chans| && s.chans[s.id[k]].peer == k
                                  && (Live(s.conns[s.id[k]]) || s.router == Launch(s.id[k])))
    && (forall i :: 0 <= i < |s.handlers| ==> s.handlers[i].c < |s.chans|)
    && RouterOk(s)
  }

  /** The routes are configured and everything else that the tables are about is unchanged. */
  ghost predicate SameTables(s: State, t: State) {
    && t.cfg == s.cfg && t.addr == s.addr && t.id == s.id && t.chans == s.chans && t.conns == s.conns
    && t.router == s.router && |t.handlers| == |s.handlers|
    && forall i :: 0 <= i < |s.handlers| ==> t.handlers[i].c == s.handlers[i].c
  }

  /** The router is between finding out where its payload goes and sending it there. */
  predicate Placing(s: State) {
    s.router.Dial? || s.router.Register? || s.router.Launch? || s.router.Forward?
  }

  lemma {:induction false} OtherStepTables(s: State, t: State)
    requires TablesOk(s) && SameTables(s, t) && (Placing(s) ==> RouterDst(t) == RouterDst(s))
    ensures TablesOk(t)
  {
    forall c | 0 <= c < |t.chans| ensures ConnOk(t, c) {
      assert ConnOk(s, c);
    }
  }

  lemma {:induction false} InboundTables(s: State, peer: PeerId)
    requires TablesOk(s)
    ensures TablesOk(DoInbound(s, peer))
  {
    var t := DoInbound(s, peer);
    assert RouterDst(t) == RouterDst(s);
    forall c | 0 <= c < |t.chans| ensures ConnOk(t, c) {
      assert ConnOk(s, c);
    }
  }

  /** A connection step that only moves its goroutine on, among the stages that own the same table entries. */
  lemma {:induction false} ConnMovesTables(s: State, t: State, c: ChanId)
    requires TablesOk(s) && c < |s.conns| && (Placing(s) ==> RouterDst(t) == RouterDst(s))
    requires t.cfg == s.cfg && t.addr == s.addr && t.id == s.id && t.chans == s.chans && t.handlers == s.handlers
    requires t.router == s.router && |t.conns| == |s.conns| && t.conns == s.conns[c := t.conns[c]]
    requires !s.conns[c].Unstarted? && !t.conns[c].Unstarted?
    requires BeforeDeleteAddr(t.conns[c]) <==> BeforeDeleteAddr(s.conns[c])
    requires Live(t.conns[c]) <==> Live(s.conns[c])
    ensures TablesOk(t)
  {
    forall d | 0 <= d < |t.chans| ensures ConnOk(t, d) {
      assert ConnOk(s, d);
    }
  }

  lemma {:induction false} DeleteAddrTables(s: State, c: ChanId, ok: bool)
    requires TablesOk(s) && c < |s.conns| && s.conns[c].DeleteAddr?
    ensures s.chans[c].dst in s.addr && s.addr[s.chans[c].dst] == c
    ensures TablesOk(DoConn(s, c, ok))
  {
    assert ConnOk(s, c);
    var t := DoConn(s, c, ok);
    assert RouterDst(t) == RouterDst(s);
    forall d | 0 <= d < |t.chans| ensures ConnOk(t, d) {
      assert ConnOk(s, d);
    }
  }

  lemma {:induction false} DeleteIdTables(s: State, c: ChanId, ok: bool)
    requires TablesOk(s) && c < |s.conns| && s.conns[c].DeleteId?
    ensures s.chans[c].peer in s.id && s.id[s.chans[c].peer] == c
    ensures TablesOk(DoConn(s, c, ok))
  {
    assert ConnOk(s, c);
    var t := DoConn(s, c, ok);
    assert RouterDst(t) == RouterDst(s);
    forall d | 0 <= d < |t.chans| ensures ConnOk(t, d) {
      assert ConnOk(s, d);
    }
  }

  // ----- the steps of addConnByDst

  /** The router moves on without writing a table, keeping its payload. */
  lemma {:induction false} RouterMovesTables(s: State, t: State)
    requires TablesOk(s) && t == s.(router := t.router)
    requires !s.router.Register? && !s.router.Launch? && !t.router.Register? && !t.router.Launch?
    requires RouterOk(t)
    ensures TablesOk(t)
  {
    forall c | 0 <= c < |t.chans| ensures ConnOk(t, c) {
      assert ConnOk(s, c);
    }
  }

  lemma {:induction false} LookupTables(s: State, key: PeerId)
    requires TablesOk(s) && (s.router.Route? || s.router.Search?) && DoRouter(s, key).mem == s.mem
    ensures TablesOk(DoRouter(s, key))
  {
    var t := DoRouter(s, key);
    assert RouterDst(t) == RouterDst(s);
    if t.router.Dial? {
      forall c | 0 <= c < |s.chans| && s.chans[c].dst == RouterDst(s) ensures !BeforeDeleteAddr(s.conns[c]) {
        assert ConnOk(s, c);
      }
    }
    RouterMovesTables(s, t);
  }

  /** No goroutine lives for this peer, and none owns this address. */
  ghost predicate NobodyServes(s: State, peer: PeerId, dst: Addr) {
    forall c :: 0 <= c < |s.chans| && c < |s.conns| ==>
      && (s.chans[c].peer == peer ==> !Live(s.conns[c]) && !s.conns[c].Unstarted?)
      && (s.chans[c].dst == dst ==> !BeforeDeleteAddr(s.conns[c]))
  }

  /** A new channel is made exactly when nobody serves the peer or its address. */
  lemma {:induction false} DialTables(s: State, key: PeerId)
    requires TablesOk(s) && s.router.Dial?
    ensures TablesOk(DoRouter(s, key))
    ensures |DoRouter(s, key).chans| > |s.chans| <==> NobodyServes(s, s.router.key, RouterDst(s))
  {
    var t, k := DoRouter(s, key), s.router.key;
    assert RouterDst(t) == RouterDst(s);
    if k in s.id {
      assert ConnOk(s, s.id[k]);
      RouterMovesTables(s, t);
    } else {
      forall c | 0 <= c < |s.chans| ensures s.chans[c].peer == k ==> !Live(s.conns[c]) && !s.conns[c].Unstarted? {
        assert ConnOk(s, c);
      }
      forall c | 0 <= c < |t.chans| ensures ConnOk(t, c) {
        if c < |s.chans| { assert ConnOk(s, c) && t.conns[c] == s.conns[c] && t.chans[c] == s.chans[c]; }
      }
    }
  }

  lemma {:induction false} RegisterTables(s: State, key: PeerId)
    requires TablesOk(s) && s.router.Register?
    ensures TablesOk(DoRouter(s, key))
  {
    var t := DoRouter(s, key);
    assert RouterDst(t) == RouterDst(s);
    forall c | 0 <= c < |t.chans| ensures ConnOk(t, c) {
      assert ConnOk(s, c);
    }
  }

  lemma {:induction false} LaunchTables(s: State, key: PeerId)
    requires TablesOk(s) && s.router.Launch?
    ensures TablesOk(DoRouter(s, key))
  {
    var t := DoRouter(s, key);
    assert RouterDst(t) == RouterDst(s);
    assert ConnOk(s, s.router.c);
    forall c | 0 <= c < |t.chans| ensures ConnOk(t, c) {
      assert ConnOk(s, c);
    }
  }

  /** The router takes up or finishes a payload, outside addConnByDst. */
  lemma {:induction false} RouterOutsideTables(s: State, t: State)
    requires TablesOk(s) && t == s.(router := t.router, mem := t.mem)
    requires !s.router.Register? && !s.router.Launch?
    requires t.router in {Receive, Route, RouterFree, RouterPut}
    ensures TablesOk(t)
  {
    forall c | 0 <= c < |t.chans| ensures ConnOk(t, c) {
      assert ConnOk(s, c);
    }
  }
}
