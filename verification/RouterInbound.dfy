/** The way in: messages from the network reach the device each at most once, and those of one stream in the order
    in which they arrived, whatever the interleaving of the receivers and the device writer. */
module RouterInbound {
  import opened Basics
  import opened PacketMem
  import opened Router
  import opened RouterMemory
  import opened RouterSafety
  import opened RouterOrder

  /** How far a message has still to go to the device. */
  function Inward(x: Place): nat {
    match x
    case With(Receiver(_)) => 3
    case In(DevWriter) => 2
    case With(TunWriter) => 1
    case _ => 0
  }

  ghost predicate SameStream(a: Content, b: Content) {
    a.Net? && b.Net? && a.from == b.from
  }

  /** The message in the device writer's hand has been written. */
  ghost predicate Output(s: State, x: Place) {
    x == With(TunWriter) && s.writer.WriterFree?
  }

  /** Payload `p` at `x` goes to the device before payload `p'` at `y`. */
  ghost predicate Leads(m: Mem, p: PayloadId, x: Place, p': PayloadId, y: Place) {
    0 < Inward(x) < Inward(y) || (x == y == In(DevWriter) && Earlier(m, DevWriter, p, p'))
  }

  /** A receiver has in hand only what came from its own stream. */
  ghost predicate OwnStream(s: State) {
    forall p: PayloadId, i :: InFlight(s.mem, p, With(Receiver(i))) ==>
      DataOf(s.mem, p).Net? && DataOf(s.mem, p).from == i
  }

  ghost predicate Heard(s: State) {
    && (forall p: PayloadId, x :: InFlight(s.mem, p, x) && DataOf(s.mem, p).Net? ==> DataOf(s.mem, p).n < s.heard)
    && (forall k :: 0 <= k < |s.out| && s.out[k].Net? ==> s.out[k].n < s.heard)
  }

  ghost predicate Climbing(s: State) {
    forall p: PayloadId, x, p': PayloadId, y ::
      InFlight(s.mem, p, x) && InFlight(s.mem, p', y) && Leads(s.mem, p, x, p', y) ==>
        SameStream(DataOf(s.mem, p), DataOf(s.mem, p')) ==> DataOf(s.mem, p).n < DataOf(s.mem, p').n
  }

  ghost predicate RestLater(s: State) {
    forall k, p: PayloadId, x ::
      0 <= k < |s.out| && InFlight(s.mem, p, x) && !Output(s, x) && SameStream(s.out[k], DataOf(s.mem, p)) ==>
        s.out[k].n < DataOf(s.mem, p).n
  }

  ghost predicate OutInOrder(out: seq<Content>) {
    forall j, k :: 0 <= j < k < |out| && SameStream(out[j], out[k]) ==> out[j].n < out[k].n
  }

  ghost predicate InboundInv(s: State) {
    OwnStream(s) && Heard(s) && Climbing(s) && RestLater(s) && OutInOrder(s.out)
  }

  // ----- what one step does

  lemma {:induction false} HeardGrows(s: State, a: Action)
    ensures Next(s, a).heard == if EffectOf(s, a).Attaches? then s.heard + 1 else s.heard
  {
  }

  /** What a step makes in flight is the next message, or a TUN packet. */
  lemma {:induction false} NewMessage(s: State, a: Action, p: PayloadId, x: Place)
    requires Inv(s) && EffectMem(s, Next(s, a), a) && InFlight(Next(s, a).mem, p, x) && New(s, a, x)
    ensures var t := Next(s, a);
            if a.StepReceiver? then
              x == With(Receiver(a.i)) && DataOf(t.mem, p) == Net(a.i, s.heard) && t.heard == s.heard + 1
            else DataOf(t.mem, p).Tun?
  {
    HeardGrows(s, a);
  }

  /** A step writes nothing to the device, or what the device writer has in hand. */
  lemma {:induction false} OutStep(s: State, a: Action)
    requires HandsOk(s)
    ensures var t := Next(s, a);
            || (t.out == s.out && (a.StepWriter? ==> !s.writer.Writing?))
            || (&& EffectOf(s, a) == Quiet && InFlight(s.mem, Mine(s, TunWriter), With(TunWriter))
                && t.out == s.out + [DataOf(s.mem, Mine(s, TunWriter))]
                && !Output(s, With(TunWriter)) && Output(t, With(TunWriter)))
  {
    if a.StepWriter? && s.writer.Writing? {
      assert GripOf(HandOf(s.mem, TunWriter)) == Needs(s, TunWriter);
    } else {
      assert Next(s, a).out == s.out;
    }
  }

  /** A message that has been written is put back before the device writer takes another. */
  lemma {:induction false} OutputStays(s: State, a: Action)
    requires Output(s, With(TunWriter)) && Needs(Next(s, a), TunWriter) == Whole
    ensures Output(Next(s, a), With(TunWriter))
  {
    var t := Next(s, a);
    assert t.writer == if a.StepWriter? then DoWriter(s).writer else s.writer;
  }

  /** What goes before after a step went before already. */
  lemma {:induction false} LeadsOrigin(s: State, t: State, a: Action, p: PayloadId, x: Place, p': PayloadId, y: Place)
    requires Inv(s) && EffectMem(s, t, a) && Leads(t.mem, p, x, p', y)
    requires InFlight(t.mem, p, x) && InFlight(t.mem, p', y)
    requires !New(s, a, x) && !New(s, a, y) && OwnStream(s) && SameStream(DataOf(s.mem, p), DataOf(s.mem, p'))
    ensures Leads(s.mem, p, Origin(s, a, p, x), p', Origin(s, a, p', y))
  {
    OriginOk(s, t, a, p, x);
    OriginOk(s, t, a, p', y);
    match EffectOf(s, a) {
      case Takes(q) =>
        TakesFrom(s, a, q);
        if x == With(TunWriter) && q == DevWriter && y == In(q) { HeadIsEarlier(s.mem, t.mem, TunWriter, q, p'); }
        if x == y { TailIsInOrder(s.mem, t.mem, MoverOf(a), q, DevWriter, p, p'); }
      case Gives(q) =>
        GivesTo(s, a, q);
        if x == y { PostedLast(s, t, a, p, p'); }
      case _ =>
    }
  }

  lemma {:induction false} PostedLast(s: State, t: State, a: Action, p: PayloadId, p': PayloadId)
    requires Owned(s.mem) && EffectMem(s, t, a) && EffectOf(s, a).Gives? && Earlier(t.mem, DevWriter, p, p')
    ensures Leads(s.mem, p, Origin(s, a, p, In(DevWriter)), p', Origin(s, a, p', In(DevWriter)))
  {
    GivesTo(s, a, EffectOf(s, a).q);
    LastIsGiven(s.mem, t.mem, MoverOf(a), EffectOf(s, a).q, DevWriter, p, p');
  }

  // ----- every part of the invariant is kept

  lemma {:induction false} OwnStreamKept(s: State, a: Action)
    requires Inv(s) && OwnStream(s)
    ensures OwnStream(Next(s, a))
  {
    var t := Next(s, a);
    NextMem(s, a);
    forall p: PayloadId, i | InFlight(t.mem, p, With(Receiver(i)))
      ensures DataOf(t.mem, p).Net? && DataOf(t.mem, p).from == i
    {
      var x := With(Receiver(i));
      if New(s, a, x) { NewMessage(s, a, p, x); }
      else {
        OriginOk(s, t, a, p, x);
        if EffectOf(s, a).Takes? { TakesFrom(s, a, EffectOf(s, a).q); }
      }
    }
  }

  lemma {:induction false} HeardKept(s: State, a: Action)
    requires Inv(s) && Heard(s)
    ensures Heard(Next(s, a))
  {
    var t := Next(s, a);
    NextMem(s, a);
    HeardGrows(s, a);
    OutStep(s, a);
    forall p: PayloadId, x | InFlight(t.mem, p, x) && DataOf(t.mem, p).Net? ensures DataOf(t.mem, p).n < t.heard {
      if New(s, a, x) { NewMessage(s, a, p, x); } else { OriginOk(s, t, a, p, x); }
    }
  }

  lemma {:induction false} ClimbsAfter(s: State, a: Action, p: PayloadId, x: Place, p': PayloadId, y: Place)
    requires Inv(s) && OwnStream(s) && OwnStream(Next(s, a)) && Heard(s) && Climbing(s) && EffectMem(s, Next(s, a), a)
    requires InFlight(Next(s, a).mem, p, x) && InFlight(Next(s, a).mem, p', y) && Leads(Next(s, a).mem, p, x, p', y)
    requires SameStream(DataOf(Next(s, a).mem, p), DataOf(Next(s, a).mem, p'))
    ensures DataOf(Next(s, a).mem, p).n < DataOf(Next(s, a).mem, p').n
  {
    var t := Next(s, a);
    if New(s, a, x) { NewMessage(s, a, p, x); } else { OriginOk(s, t, a, p, x); }
    if New(s, a, y) { NewMessage(s, a, p', y); } else { OriginOk(s, t, a, p', y); }
    if !New(s, a, x) && !New(s, a, y) { LeadsOrigin(s, t, a, p, x, p', y); }
  }

  lemma {:induction false} ClimbingKept(s: State, a: Action)
    requires Inv(s) && OwnStream(s) && Heard(s) && Climbing(s)
    ensures Climbing(Next(s, a))
  {
    var t := Next(s, a);
    NextMem(s, a);
    OwnStreamKept(s, a);
    forall p: PayloadId, x, p': PayloadId, y
      | InFlight(t.mem, p, x) && InFlight(t.mem, p', y) && Leads(t.mem, p, x, p', y)
        && SameStream(DataOf(t.mem, p), DataOf(t.mem, p'))
      ensures DataOf(t.mem, p).n < DataOf(t.mem, p').n
    {
      ClimbsAfter(s, a, p, x, p', y);
    }
  }

  lemma {:induction false} LaterAfter(s: State, a: Action, k: nat, p: PayloadId, x: Place)
    requires Inv(s) && Heard(s) && Climbing(s) && RestLater(s)
    requires k < |Next(s, a).out| && InFlight(Next(s, a).mem, p, x) && !Output(Next(s, a), x)
    requires SameStream(Next(s, a).out[k], DataOf(Next(s, a).mem, p))
    ensures Next(s, a).out[k].n < DataOf(Next(s, a).mem, p).n
  {
    var t := Next(s, a);
    NextMem(s, a);
    OutStep(s, a);
    if New(s, a, x) { NewMessage(s, a, p, x); }
    else {
      var ox := Origin(s, a, p, x);
      OriginOk(s, t, a, p, x);
      if Output(s, ox) {
        assert ox == x;
        assert GripOf(HandOf(t.mem, TunWriter)) == Needs(t, TunWriter);
        OutputStays(s, a);
      }
      if k == |s.out| { WrittenLeads(s, p, ox); }
    }
  }

  /** What the device writer has in hand goes before every other message of its stream. */
  lemma {:induction false} WrittenLeads(s: State, p: PayloadId, x: Place)
    requires Inv(s) && InFlight(s.mem, p, x) && x != With(TunWriter) && DataOf(s.mem, p).Net?
    ensures Leads(s.mem, Mine(s, TunWriter), With(TunWriter), p, x)
  {
    assert Fits(s, x, DstOf(s.mem, p), DataOf(s.mem, p));
  }

  lemma {:induction false} InboundKept(s: State, a: Action)
    requires Inv(s) && InboundInv(s)
    ensures InboundInv(Next(s, a))
  {
    var t := Next(s, a);
    OwnStreamKept(s, a);
    HeardKept(s, a);
    ClimbingKept(s, a);
    OutStep(s, a);
    forall k, p: PayloadId, x
      | 0 <= k < |t.out| && InFlight(t.mem, p, x) && !Output(t, x) && SameStream(t.out[k], DataOf(t.mem, p))
      ensures t.out[k].n < DataOf(t.mem, p).n
    {
      LaterAfter(s, a, k, p, x);
    }
  }

  lemma {:induction false} RunInbound(cfg: Config, acts: seq<Action>)
    ensures InboundInv(Run(cfg, acts))
  {
    if acts != [] {
      RunKeeps(cfg, acts[..|acts| - 1]);
      RunInbound(cfg, acts[..|acts| - 1]);
      InboundKept(Run(cfg, acts[..|acts| - 1]), acts[|acts| - 1]);
    }
  }

  /** The messages of every stream reach the device in the order in which they came. */
  lemma {:induction false} DeviceGetsStreamsInOrder(cfg: Config, acts: seq<Action>, j: nat, k: nat)
    requires j < k < |Run(cfg, acts).out|
    ensures var out := Run(cfg, acts).out;
            && out[j].Net? && out[k].Net? && out[j] != out[k]
            && (out[j].from == out[k].from ==> out[j].n < out[k].n)
  {
    RunKeeps(cfg, acts);
    RunInbound(cfg, acts);
    assert OutInOrder(Run(cfg, acts).out);
  }

  // ----- every message that reaches devWriter reaches the device

  /** The message that this action puts into devWriter, if any. */
  ghost function Offered(s: State, a: Action): seq<Content> {
    if a.StepReceiver? && a.i < |s.receivers| && s.receivers[a.i].Posting? && HasRoom(s, DevWriter)
    then [DataOf(s.mem, Mine(s, Receiver(a.i)))] else []
  }

  /** The message that this action takes from devWriter, if any. */
  ghost function TakenBy(s: State, a: Action): seq<Content> {
    if a.StepWriter? && s.writer.Await? && Line(s.mem, DevWriter) != []
    then [DataOf(s.mem, Line(s.mem, DevWriter)[0])] else []
  }

  ghost function AllOffered(cfg: Config, acts: seq<Action>): seq<Content> {
    if acts == [] then []
    else
      var front := acts[..|acts| - 1];
      AllOffered(cfg, front) + Offered(Run(cfg, front), acts[|acts| - 1])
  }

  ghost function AllTaken(cfg: Config, acts: seq<Action>): seq<Content> {
    if acts == [] then []
    else
      var front := acts[..|acts| - 1];
      AllTaken(cfg, front) + TakenBy(Run(cfg, front), acts[|acts| - 1])
  }

  /** The message that the device writer has taken and not yet written. */
  ghost function Unwritten(s: State): seq<Content> {
    if s.writer.Writing? then [DataOf(s.mem, Mine(s, TunWriter))] else []
  }

  ghost function Contents(m: Mem, line: seq<PayloadId>): seq<Content> {
    seq(|line|, i requires 0 <= i < |line| => DataOf(m, line[i]))
  }

  ghost function Waiting(s: State): seq<Content> {
    Contents(s.mem, Line(s.mem, DevWriter))
  }

  /** What waits in devWriter does not change while it waits. */
  lemma {:induction false} WaitingStays(s: State, t: State)
    requires SameInFlight(s.mem, t.mem, Lost) || exists w :: SameInFlight(s.mem, t.mem, With(w))
    ensures Waiting(t) == Contents(s.mem, Line(t.mem, DevWriter))
  {
    var line := Line(t.mem, DevWriter);
    forall i | 0 <= i < |line| ensures DataOf(t.mem, line[i]) == DataOf(s.mem, line[i]) {
      assert InFlight(t.mem, line[i], In(DevWriter));
    }
  }

  lemma {:induction false} TakenEffect(s: State, a: Action)
    ensures TakenBy(s, a) ==
              if EffectOf(s, a) == Takes(DevWriter) then Contents(s.mem, Line(s.mem, DevWriter)[..1]) else []
  {
  }

  lemma {:induction false} OfferedEffect(s: State, a: Action)
    ensures Offered(s, a) == if EffectOf(s, a) == Gives(DevWriter) then [DataOf(s.mem, Mine(s, MoverOf(a)))] else []
  {
  }

  lemma {:induction false} EffectWaits(s: State, t: State, a: Action)
    requires EffectMem(s, t, a)
    ensures TakenBy(s, a) + Waiting(t) == Waiting(s) + Offered(s, a)
  {
    TakenEffect(s, a);
    OfferedEffect(s, a);
    WaitingStays(s, t);
    var line := Line(s.mem, DevWriter);
    if EffectOf(s, a) == Takes(DevWriter) {
      assert line == line[..1] + line[1..];
      assert Contents(s.mem, line) == Contents(s.mem, line[..1]) + Contents(s.mem, line[1..]);
    } else if EffectOf(s, a) == Gives(DevWriter) {
      var p := HandOf(s.mem, MoverOf(a)).value.p;
      assert Contents(s.mem, line + [p]) == Contents(s.mem, line) + [DataOf(s.mem, p)];
    }
  }

  lemma {:induction false} WaitingMoves(s: State, a: Action)
    requires Inv(s)
    ensures TakenBy(s, a) + Waiting(Next(s, a)) == Waiting(s) + Offered(s, a)
  {
    NextMem(s, a);
    EffectWaits(s, Next(s, a), a);
  }

  /** The message in the device writer's hand is not touched by others. */
  lemma {:induction false} UnwrittenStays(s: State, a: Action)
    requires Inv(s) && !a.StepWriter?
    ensures Unwritten(Next(s, a)) == Unwritten(s) && Next(s, a).out == s.out
  {
    var t := Next(s, a);
    OthersDoNotWrite(s, a);
    if s.writer.Writing? {
      assert GripOf(HandOf(s.mem, TunWriter)) == Needs(s, TunWriter);
      if a.Inbound? { assert DoInbound(s, a.peer).mem == s.mem; } else { WriterKeeps(s, a); }
    }
  }

  lemma {:induction false} WriterKeeps(s: State, a: Action)
    requires Inv(s) && !a.StepWriter? && !a.Inbound? && HandOf(s.mem, TunWriter) == Some(Carry(Mine(s, TunWriter)))
    ensures Mine(Next(s, a), TunWriter) == Mine(s, TunWriter)
    ensures DataOf(Next(s, a).mem, Mine(s, TunWriter)) == DataOf(s.mem, Mine(s, TunWriter))
  {
    NextMem(s, a);
    CarriedStays(s, Next(s, a), a, TunWriter, Mine(s, TunWriter));
  }

  lemma {:induction false} OthersDoNotWrite(s: State, a: Action)
    requires !a.StepWriter?
    ensures Next(s, a).writer == s.writer && Next(s, a).out == s.out
  {
  }

  lemma {:induction false} OutMoves(s: State, a: Action)
    requires Inv(s)
    ensures Next(s, a).out + Unwritten(Next(s, a)) == s.out + Unwritten(s) + TakenBy(s, a)
  {
    if a.StepWriter? {
      var t := DoWriter(s);
      NextMem(s, a);
      if s.writer.Await? && Line(s.mem, DevWriter) != [] {
        assert Mine(t, TunWriter) == Line(s.mem, DevWriter)[0];
        assert InFlight(t.mem, Mine(t, TunWriter), With(TunWriter));
      }
    } else {
      UnwrittenStays(s, a);
    }
  }

  lemma {:induction false} DeviceBalances(cfg: Config, acts: seq<Action>)
    ensures var s := Run(cfg, acts);
            && s.out + Unwritten(s) == AllTaken(cfg, acts)
            && AllTaken(cfg, acts) + Waiting(s) == AllOffered(cfg, acts)
  {
    if acts != [] {
      var front, a := acts[..|acts| - 1], acts[|acts| - 1];
      var s := Run(cfg, front);
      var t := Next(s, a);
      DeviceBalances(cfg, front);
      RunKeeps(cfg, front);
      WaitingMoves(s, a);
      OutMoves(s, a);
      Balances(AllOffered(cfg, front), AllTaken(cfg, front), Waiting(s), Offered(s, a), TakenBy(s, a), Waiting(t));
    }
  }

  /** The device has been given exactly the messages taken from devWriter, in order, but for one that is just being
      written; and what was put into devWriter is what was taken and what still waits. */
  lemma {:induction false} DeviceGetsEverything(cfg: Config, acts: seq<Action>)
    ensures var s := Run(cfg, acts);
            && s.out + Unwritten(s) == AllTaken(cfg, acts)
            && AllTaken(cfg, acts) + Waiting(s) == AllOffered(cfg, acts)
            && (s.writer.Await? ==> s.out == AllTaken(cfg, acts))
  {
    DeviceBalances(cfg, acts);
    var s := Run(cfg, acts);
    assert s.out + [] == s.out;
  }

  lemma {:induction false} Balances<T>(offered: seq<T>, taken: seq<T>, waiting: seq<T>, more: seq<T>, one: seq<T>,
                                       left: seq<T>)
    requires taken + waiting == offered && one + left == waiting + more
    ensures (taken + one) + left == offered + more
  {
    assert (taken + one) + left == taken + (one + left) == taken + (waiting + more) == (taken + waiting) + more;
  }
}
