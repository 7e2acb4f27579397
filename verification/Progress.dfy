/** From every reachable state the receiving side hands over everything that has been sent, without any
    further send: while anything is pending some event of its handler, or a kick that the sender owes,
    is possible, and every such event brings it closer.
 */
module Progress {
  import opened Words
  import opened Lanes
  import opened Channels
  import opened ChannelSteps
  import opened System
  import opened SystemProof
  import opened LinkTheorems
  import opened Ownership

  /** What is answered to a message, by its number and content: whether its buffer is held. A message
      for an address that no endpoint has is never held; other answers are the application's. */
  type Answers = (nat, Msg) -> bool

  // ---- the events of the receiving side

  /** The steps of the drain loop: reading, then holding or returning as the application answers. */
  predicate DrainStep(c: Channel, t: Step, a: Answers) {
    match t
    case Receive(_) => true
    case Hold(d) => a(|c.delivered|, View(BufferOf(c, d)))
    case Free(d) => !a(|c.delivered|, View(BufferOf(c, d)))
    case FreeWrite(_) => true
    case _ => false
  }

  /** An event of the receiver's handler, or the kick that its sender owes. */
  predicate Handles(s: State, e: Event, side: Side, a: Answers) {
    match e
    case IsrEnter(x) => x == side
    case IsrTest(x) => x == side
    case TxCallback(x) => x == side
    case DrainEnd(x) => x == side
    case Consume(x, t) => x == side && DrainStep(RxChannel(s, side), t, a)
    case Kick(x) => x == Other(side)
    case _ => false
  }

  /** A run of such events. */
  ghost predicate HandlerRun(s: State, es: seq<Event>, t: State, side: Side, a: Answers)
    decreases |es|
  {
    if es == [] then t == s
    else Possible(s, es[0]) && Handles(s, es[0], side, a) && HandlerRun(Next(s, es[0]), es[1..], t, side, a)
  }

  // ---- the work left in the drain loop

  function Left(c: Channel): nat {
    |Pending(c.data)|
  }

  function ReadLeft(r: Reader): nat {
    match r
    case RIdle => 5
    case RSeen => 4
    case RAt(_) => 3
    case RHalf(_, _) => 2
    case RHas(_) => 1
  }

  function WriteLeft(w: Writer): nat {
    match w
    case WIdle => 0
    case WFull(_, _) => 1
    case WHalf(_, _) => 2
    case WPlaced(_, _) => 3
  }

  /** At most nine steps for each message: five to read it, one to hold it or four to return it. */
  function Work(c: Channel): nat {
    9 * Left(c) + ReadLeft(c.data.ring.reader) + 4 * |c.qLocal| + WriteLeft(c.free.ring.writer)
  }

  /** Nothing is added to what is pending, no history of sends changes, and there is less work. */
  predicate Nearer(c: Channel, c': Channel) {
    c'.sent == c.sent && Left(c') <= Left(c) && Work(c') < Work(c)
  }

  lemma ReadMoves(l: Lane, r: ReaderStep)
    requires LaneInv(l) && CanRead(l.ring, r) && (r.Check? ==> Pending(l) != [])
    ensures r.Take? ==> ReadLeft(l.ring.reader) == 1 && ReadLeft(Read(l, r).ring.reader) == 5
    ensures !r.Take? ==> ReadLeft(Read(l, r).ring.reader) < ReadLeft(l.ring.reader)
  {
    if r.Check? { EqualMeansEmpty(l); }
    hide LaneInv, Pending;
  }

  lemma ReceiveNearer(c: Channel, r: ReaderStep)
    requires ChannelInv(c) && CanRead(c.data.ring, r) && (r.Check? ==> Left(c) > 0)
    ensures Nearer(c, DoReceive(c, r))
  {
    hide ChannelInv, LaneInv, CanRead, Read, Pending, DoReceive, ReadLeft;
    DataLaneInv(c);
    ReadMoves(c.data, r);
    PendingAfterRead(c.data, r);
    ReceiveShape(c, r);
  }

  lemma ReceiveShape(c: Channel, r: ReaderStep)
    requires CanRead(c.data.ring, r)
    ensures var c' := DoReceive(c, r);
            && c'.data == Read(c.data, r) && c'.free == c.free && c'.sent == c.sent
            && |c'.qLocal| == |c.qLocal| + (if r.Take? then 1 else 0)
  {
    hide CanRead, Read, TakenLen, View, BufferOf;
  }

  lemma HoldNearer(c: Channel, d: nat)
    requires d in c.qLocal
    ensures Nearer(c, DoHold(c, d))
  {
    hide Pending;
    BufferFrame(c, d, BufferOf(c, d).(idx := d % U16));
  }

  lemma FreeNearer(c: Channel, d: nat)
    requires d in c.qLocal && CanWrite(c.free.ring, Place(Slot(0, 0)))
    ensures Nearer(c, DoFree(c, d))
  {
    CanPlaceAny(c.free.ring, Slot(0, 0));
    var item := MakeItem(c.free.ring.kind, d, Lookup(c.qLen, d));
    PlaceFrame(c.free, item);
    hide Pending, CanWrite, Write, Cleared;
    ClearedFrame(c.(free := Write(c.free, Place(item)), qLocal := c.qLocal - multiset{d}), d);
  }

  lemma FreeWriteNearer(c: Channel, w: WriterStep)
    requires CanWrite(c.free.ring, w) && !w.Place?
    ensures Nearer(c, DoFreeWrite(c, w))
  {
    hide Pending;
  }

  lemma StepNearer(c: Channel, t: Step, a: Answers)
    requires ChannelInv(c) && Enabled(c, t) && DrainStep(c, t, a) && (t == Receive(Check) ==> Left(c) > 0)
    ensures Nearer(c, Apply(c, t))
  {
    hide ChannelInv, CanRead, CanWrite, Nearer, View, BufferOf, Left, DoReceive, DoHold, DoFree, DoFreeWrite;
    match t {
      case Receive(r) => ReceiveNearer(c, r);
      case Hold(d) => HoldNearer(c, d);
      case Free(d) => FreeNearer(c, d);
      case FreeWrite(w) => FreeWriteNearer(c, w);
    }
  }

  // ---- the way to the drain loop

  function IdleAway(k: Core, side: Side): nat {
    if side.Master? then (if k.bell0 then 2 else if k.bell1 then 7 else 3)
    else (if k.bell1 then 4 else if k.bell0 then 9 else 5)
  }

  /** The handler's steps until it drains; a bell of the other vector costs a round of its own. */
  function Away(k: Core, side: Side): nat {
    if side.Master? then MasterAway(k) else RemoteAway(k)
  }

  function MasterAway(k: Core): nat {
    match k.isr
    case Idle => IdleAway(k, Master)
    case Bit0(f0, f1) =>
      if f0 then 1 else if f1 then (if k.bell0 then 5 else 6) else IdleAway(k, Master) + 2
    case Serving0(_) => 0
    case Bit1(f1) => if f1 then (if k.bell0 then 4 else 5) else IdleAway(k, Master) + 1
    case Serving1 => IdleAway(k, Master) + 1
  }

  function RemoteAway(k: Core): nat {
    match k.isr
    case Idle => IdleAway(k, Remote)
    case Bit0(f0, f1) =>
      if f1 then 3 else if f0 then (if k.bell1 then 7 else 8) else IdleAway(k, Remote) + 2
    case Serving0(f1) => if f1 then 2 else IdleAway(k, Remote) + 2
    case Bit1(f1) => if f1 then 1 else IdleAway(k, Remote) + 1
    case Serving1 => 0
  }

  /** What is left until everything has been taken. */
  function Potential(s: State, side: Side): nat {
    Work(RxChannel(s, side)) + Away(CoreOf(s, side), side) + (if CoreOf(s, Other(side)).kickDue then 1 else 0)
  }

  /** The receiver goes on, and is nearer. */
  predicate Advances(s: State, s': State, side: Side) {
    && s'.phase == s.phase && CoreOf(s', side).up == CoreOf(s, side).up
    && RxChannel(s', side).sent == RxChannel(s, side).sent
    && Left(RxChannel(s', side)) <= Left(RxChannel(s, side))
    && Potential(s', side) < Potential(s, side)
  }

  lemma TestCloser(k: Core, side: Side)
    requires k.isr.Bit0? || k.isr.Bit1?
    ensures DoTest(k).up == k.up && DoTest(k).kickDue == k.kickDue && Away(DoTest(k), side) < Away(k, side)
  {
    if side.Master? { MasterTestCloser(k); } else { RemoteTestCloser(k); }
    hide MasterAway, RemoteAway;
  }

  lemma MasterTestCloser(k: Core)
    requires k.isr.Bit0? || k.isr.Bit1?
    ensures MasterAway(DoTest(k)) < MasterAway(k)
  {
    if k.isr.Bit0? { Bit0Tested(k); } else { Bit1Tested(k); }
    hide DoTest;
  }

  lemma RemoteTestCloser(k: Core)
    requires k.isr.Bit0? || k.isr.Bit1?
    ensures RemoteAway(DoTest(k)) < RemoteAway(k)
  {
    if k.isr.Bit0? { Bit0Tested(k); } else { Bit1Tested(k); }
    hide DoTest;
  }

  lemma Bit0Tested(k: Core)
    requires k.isr.Bit0?
    ensures DoTest(k) == if k.isr.f0 then k.(bell0 := false, isr := Serving0(k.isr.f1)) else k.(isr := Bit1(k.isr.f1))
  {
  }

  lemma Bit1Tested(k: Core)
    requires k.isr.Bit1?
    ensures DoTest(k) == if k.isr.f1 then k.(bell1 := false, isr := Serving1) else k.(isr := Idle)
  {
  }

  lemma ServedCloser(k: Core, side: Side)
    requires InTxCallback(k, side)
    ensures var k' := DoServed(k).(link := true);
            k'.up == k.up && k'.kickDue == k.kickDue && Away(k', side) < Away(k, side)
  {
  }

  lemma EnterCloser(k: Core, side: Side)
    requires k.isr.Idle? && (k.bell0 || k.bell1)
    ensures DoEnter(k).up == k.up && DoEnter(k).kickDue == k.kickDue && Away(DoEnter(k), side) < Away(k, side)
  {
  }

  lemma RingCloser(k: Core, side: Side, v: nat)
    requires v == if side.Master? then 0 else 1
    ensures DoRing(k, v).up == k.up && DoRing(k, v).kickDue == k.kickDue && Away(DoRing(k, v), side) <= Away(k, side)
  {
    if side.Master? { MasterRung(k); } else { RemoteRung(k); }
    hide MasterAway, RemoteAway;
  }

  lemma MasterRung(k: Core)
    ensures MasterAway(k.(bell0 := true)) <= MasterAway(k)
  {
  }

  lemma RemoteRung(k: Core)
    ensures RemoteAway(k.(bell1 := true)) <= RemoteAway(k)
  {
  }

  lemma CoreAdvances(s: State, s': State, side: Side)
    requires s' == SetCore(s, side, CoreOf(s', side)) && CoreOf(s', side).up == CoreOf(s, side).up
    requires Away(CoreOf(s', side), side) < Away(CoreOf(s, side), side)
    ensures Advances(s, s', side)
  {
    hide Away, Work, Left;
  }

  lemma KickAdvances(s: State, side: Side)
    requires CoreOf(s, Other(side)).kickDue && !s.noNotify0 && !s.noNotify1
    ensures Advances(s, DoKick(s, Other(side)), side)
  {
    hide Away, Work, Left, DoRing;
    RingCloser(CoreOf(s, side), side, if side.Master? then 0 else 1);
  }

  lemma ConsumeAdvances(s: State, side: Side, t: Step)
    requires CanConsume(s, side, t) && Nearer(RxChannel(s, side), Apply(RxChannel(s, side), t))
    ensures Advances(s, DoConsume(s, side, t), side)
  {
    hide Work, Left, Enabled, Apply, ConsumerStep;
    FreedSame(CoreOf(s, side), side);
  }

  /** The flag for returned buffers plays no part. */
  lemma FreedSame(k: Core, side: Side)
    ensures Away(k.(freed := true), side) == Away(k, side)
  {
  }

  lemma ReadyParts(s: State, g: Config, side: Side)
    requires Inv(s, g) && s.phase.Ready?
    ensures ChannelInv(RxChannel(s, side)) && !s.noNotify0 && !s.noNotify1
    ensures DrainOk(RxChannel(s, side), CoreOf(s, side), side)
    ensures Awake(RxChannel(s, side), CoreOf(s, side), side, CoreOf(s, Other(side)))
  {
    hide ChannelInv, DrainOk, Awake, AnyChannel, Early, SeedOk, CoresOk;
  }

  /** While anything is pending, every event of the handler advances. */
  lemma EveryEventAdvances(s: State, g: Config, side: Side, a: Answers, e: Event)
    requires Inv(s, g) && s.phase.Ready? && Left(RxChannel(s, side)) > 0
    requires Possible(s, e) && Handles(s, e, side, a)
    ensures Advances(s, Next(s, e), side)
  {
    hide Inv, ChannelInv, Enabled, Apply, DrainStep, Left, Advances, Away, CanConsume, DoTest, DoServed, DoEnter,
         DoConsume, DoKick, CanEnd, Nearer, DrainOk, Awake;
    ReadyParts(s, g, side);
    match e {
      case Consume(_, t) => ConsumeCase(s, side, a, t);
      case Kick(_) => KickAdvances(s, side);
      case IsrEnter(_) =>
        EnterCloser(CoreOf(s, side), side);
        CoreAdvances(s, Next(s, e), side);
      case IsrTest(_) =>
        TestCloser(CoreOf(s, side), side);
        CoreAdvances(s, Next(s, e), side);
      case TxCallback(_) =>
        ServedCloser(CoreOf(s, side), side);
        CoreAdvances(s, Next(s, e), side);
      case DrainEnd(_) => NoEndYet(s, side);
    }
  }

  lemma ConsumeCase(s: State, side: Side, a: Answers, t: Step)
    requires CanConsume(s, side, t) && DrainStep(RxChannel(s, side), t, a)
    requires ChannelInv(RxChannel(s, side)) && Left(RxChannel(s, side)) > 0
    ensures Advances(s, DoConsume(s, side, t), side)
  {
    hide ChannelInv, Enabled, Apply, DrainStep, Left, Nearer;
    var c := RxChannel(s, side);
    assert Enabled(c, t);
    hide CanConsume, Advances;
    StepNearer(c, t, a);
    ConsumeAdvances(s, side, t);
  }

  /** The drain loop cannot end while anything is pending. */
  lemma NoEndYet(s: State, side: Side)
    requires CanEnd(s, side) && ChannelInv(RxChannel(s, side))
    ensures Left(RxChannel(s, side)) == 0
  {
    assert RxChannel(s, side).data.ring.reader.RIdle?;
    hide ChannelInv, LaneInv, Pending;
    DataLaneInv(RxChannel(s, side));
    EqualMeansEmpty(RxChannel(s, side).data);
  }

  // ---- there is always a next event

  /** What the drain loop does next, or may do: going on with a read or a write, settling a message
      that it has as the application answers, checking for the next one. */
  ghost function DrainMove(c: Channel, a: Answers): Step {
    if !c.data.ring.reader.RIdle? then Receive(NextRead(c.data.ring))
    else if |c.qLocal| > 0 then
      var d :| d in c.qLocal;
      if a(|c.delivered|, View(BufferOf(c, d))) then Hold(d)
      else if c.free.ring.writer.WIdle? then Free(d)
      else FreeWrite(NextWrite(c.free.ring))
    else Receive(Check)
  }

  lemma DrainMoveOk(c: Channel, a: Answers)
    requires ChannelInv(c)
    ensures var t := DrainMove(c, a);
            && Enabled(c, t) && DrainStep(c, t, a) && ConsumerStep(t)
            && (t == Receive(Check) ==> c.data.ring.reader.RIdle? && |c.qLocal| == 0)
  {
    hide ChannelInv, RingWf, View, BufferOf;
    RingsOk(c);
  }

  lemma RingsOk(c: Channel)
    requires ChannelInv(c)
    ensures RingWf(c.data.ring) && RingWf(c.free.ring)
  {
  }

  /** The handler's own next event, or the kick that the sender owes. */
  ghost function NextMove(s: State, side: Side, a: Answers): Event {
    var k := CoreOf(s, side);
    if Draining(k, side) then Consume(side, DrainMove(RxChannel(s, side), a))
    else if k.isr.Bit0? || k.isr.Bit1? then IsrTest(side)
    else if !k.isr.Idle? then TxCallback(side)
    else if RxBell(k, side) then IsrEnter(side)
    else Kick(Other(side))
  }

  lemma NextMoveOk(s: State, g: Config, side: Side, a: Answers)
    requires Inv(s, g) && s.phase.Ready? && CoreOf(s, side).up && Left(RxChannel(s, side)) > 0
    ensures Possible(s, NextMove(s, side, a)) && Handles(s, NextMove(s, side, a), side, a)
  {
    hide Inv, ChannelInv, Enabled, DrainStep, DrainMove, Left, DrainOk, Awake, ConsumerStep;
    ReadyParts(s, g, side);
    if Draining(CoreOf(s, side), side) {
      DrainMoveOk(RxChannel(s, side), a);
    } else {
      SomethingPending(RxChannel(s, side), CoreOf(s, side), side, CoreOf(s, Other(side)));
    }
  }

  lemma SomethingPending(c: Channel, receiver: Core, side: Side, sender: Core)
    requires Awake(c, receiver, side, sender) && Left(c) > 0
    ensures RxBell(receiver, side) || Draining(receiver, side) || sender.kickDue
  {
  }

  // ---- buffers come back

  /** The receiver has nothing left to do: nothing is pending, and no buffer is with its handler or on
      its way back. */
  predicate Done(c: Channel) {
    Left(c) == 0 && |c.qLocal| == 0 && c.free.ring.writer.WIdle?
  }

  ghost predicate NeverHolds(a: Answers) {
    forall i, m :: !a(i, m)
  }

  /** What the receiver's handler leaves as it was: what the sender holds, and, if nothing is held, what
      the application holds. */
  ghost predicate HoldersSame(c: Channel, c': Channel, a: Answers) {
    && c'.cfg == c.cfg && c'.desc == c.desc && c'.sent == c.sent
    && c'.pLocal == c.pLocal && c'.pApp == c.pApp && c'.data.ring.writer == c.data.ring.writer
    && (NeverHolds(a) ==> c'.qApp == c.qApp)
  }

  /** When nothing is pending: settling the message that the handler has, or going on with a return. */
  ghost function SettleMove(c: Channel, a: Answers): Step {
    if |c.qLocal| > 0 then DrainMove(c, a) else FreeWrite(NextWrite(c.free.ring))
  }

  lemma SettleMoveOk(c: Channel, a: Answers)
    requires ChannelInv(c) && Left(c) == 0 && !Done(c)
    ensures var t := SettleMove(c, a);
            && Enabled(c, t) && DrainStep(c, t, a) && ConsumerStep(t) && !t.Receive?
            && (t.Hold? || t.Free? ==> |c.qLocal| > 0)
  {
    hide ChannelInv, RingWf, View, BufferOf, LaneInv, Pending;
    RingsOk(c);
    DataLaneInv(c);
    EmptyMeansIdle(c.data);
    DrainMoveOk(c, a);
  }

  lemma EmptyMeansIdle(l: Lane)
    requires LaneInv(l) && Pending(l) == []
    ensures l.ring.reader.RIdle?
  {
  }

  lemma SettleAdvances(s: State, g: Config, side: Side, a: Answers)
    requires Inv(s, g) && s.phase.Ready? && CoreOf(s, side).up
    requires Left(RxChannel(s, side)) == 0 && !Done(RxChannel(s, side))
    ensures var e := Consume(side, SettleMove(RxChannel(s, side), a));
            Possible(s, e) && Handles(s, e, side, a) && Advances(s, Next(s, e), side)
  {
    hide Inv, ChannelInv, Enabled, Apply, DrainStep, SettleMove, Advances, Left, Nearer, Awake, ConsumerStep, Done;
    ReadyParts(s, g, side);
    var c, t := RxChannel(s, side), SettleMove(RxChannel(s, side), a);
    SettleMoveOk(c, a);
    StepNearer(c, t, a);
    ConsumeAdvances(s, side, t);
  }

  lemma StepKeepsHolders(c: Channel, t: Step, a: Answers)
    requires ChannelInv(c) && Enabled(c, t) && DrainStep(c, t, a)
    ensures HoldersSame(c, Apply(c, t), a)
  {
    hide ChannelInv, NeverHolds, Enabled, Apply, DrainStep, ConsumerStep;
    DrainIsConsumer(c, t, a);
    if t.Hold? { HoldIsAnswered(c, t.d, a); } else { AppsKept(c, t); }
    ConsumerShape(c, t);
  }

  lemma DrainIsConsumer(c: Channel, t: Step, a: Answers)
    requires DrainStep(c, t, a)
    ensures ConsumerStep(t) && !t.Release?
  {
  }

  lemma HoldIsAnswered(c: Channel, d: nat, a: Answers)
    requires DrainStep(c, Hold(d), a)
    ensures !NeverHolds(a)
  {
  }

  lemma AppsKept(c: Channel, t: Step)
    requires Enabled(c, t) && ConsumerStep(t) && !t.Release? && !t.Hold?
    ensures Apply(c, t).qApp == c.qApp
  {
    hide CanRead, CanWrite, Read, Write, TakenLen, View, BufferOf;
  }

  lemma HandlerKeepsHolders(s: State, g: Config, side: Side, a: Answers, e: Event)
    requires Inv(s, g) && s.phase.Ready? && Possible(s, e) && Handles(s, e, side, a)
    ensures HoldersSame(RxChannel(s, side), RxChannel(Next(s, e), side), a)
  {
    hide Inv, ChannelInv, CanConsume, DrainStep, CanEnd, Next, DoConsume, HoldersSame, NeverHolds;
    match e {
      case Consume(_, t) =>
        ReadyParts(s, g, side);
        NextConsume(s, side, t);
        ConsumeKeepsHolders(s, side, t, a);
      case _ =>
        CoresOnly(s, e);
        HoldersSelf(RxChannel(s, side), a);
    }
  }

  lemma ConsumeKeepsHolders(s: State, side: Side, t: Step, a: Answers)
    requires CanConsume(s, side, t) && ChannelInv(RxChannel(s, side)) && DrainStep(RxChannel(s, side), t, a)
    ensures HoldersSame(RxChannel(s, side), RxChannel(DoConsume(s, side, t), side), a)
  {
    hide ChannelInv, Enabled, Apply, DrainStep, HoldersSame, ConsumerStep;
    StepKeepsHolders(RxChannel(s, side), t, a);
  }

  lemma HoldersSelf(c: Channel, a: Answers)
    ensures HoldersSame(c, c, a)
  {
  }

  lemma HoldersTwice(c: Channel, c1: Channel, c2: Channel, a: Answers)
    requires HoldersSame(c, c1, a) && HoldersSame(c1, c2, a)
    ensures HoldersSame(c, c2, a)
  {
    hide NeverHolds;
  }

  /** Everything that the sender and the application do not hold is on the free ring. */
  ghost predicate AllBack(c: Channel, n: nat) {
    PendingIds(c.free) + c.pLocal + c.pApp + c.qApp + WriterIds(c.data) == AllIds(n)
  }

  lemma DoneMeansBack(c: Channel)
    requires ChannelInv(c) && Done(c)
    ensures AllBack(c, |c.desc|) && c.delivered == c.sent
  {
    NoneLeft(c);
    hide LaneInv, DescOk, LensOk, Stashed, Fifo, AllIds;
    assert PendingIds(c.data) == multiset{};
    assert c.qLocal == multiset{};
    assert Total(c) == PendingIds(c.free) + c.pLocal + c.pApp + c.qApp + WriterIds(c.data);
  }

  /** How many descriptors the sender and the application hold. */
  function Out(c: Channel): nat {
    |c.pLocal| + |c.pApp| + |c.qApp| + if c.data.ring.writer.WIdle? then 0 else 1
  }

  lemma SomethingBack(c: Channel, n: nat)
    requires AllBack(c, n)
    ensures |Pending(c.free)| == n - Out(c)
  {
    assert |AllIds(n)| == n;
    assert |PendingIds(c.free)| == |Pending(c.free)|;
  }

  // ---- the theorems

  lemma NoneLeft(c: Channel)
    requires ChannelInv(c) && Left(c) == 0
    ensures c.delivered == c.sent
  {
    hide ChannelInv;
    NothingPending(c);
  }

  lemma {:induction false} Arrives(s: State, g: Config, side: Side, a: Answers) returns (es: seq<Event>, t: State)
    requires Inv(s, g) && s.phase.Ready? && CoreOf(s, side).up
    ensures HandlerRun(s, es, t, side, a) && Inv(t, g) && t.phase.Ready?
    ensures HoldersSame(RxChannel(s, side), RxChannel(t, side), a) && Done(RxChannel(t, side))
    decreases Potential(s, side)
  {
    hide Inv, Possible, Next, Handles, Left, Potential, ChannelInv, NextMove, SettleMove, HoldersSame, Done;
    if Done(RxChannel(s, side)) {
      HoldersSelf(RxChannel(s, side), a);
      es, t := [], s;
    } else {
      var e := NextMove(s, side, a);
      if Left(RxChannel(s, side)) == 0 {
        e := Consume(side, SettleMove(RxChannel(s, side), a));
        SettleAdvances(s, g, side, a);
      } else {
        NextMoveOk(s, g, side, a);
        EveryEventAdvances(s, g, side, a, e);
      }
      EventKeeps(s, g, e);
      HandlerKeepsHolders(s, g, side, a, e);
      var rest;
      rest, t := Arrives(Next(s, e), g, side, a);
      HoldersTwice(RxChannel(s, side), RxChannel(Next(s, e), side), RxChannel(t, side), a);
      es := [e] + rest;
      assert es[1..] == rest;
    }
  }

  /** From every reachable state of a running link, whatever the application answers, there is a run of
      the receiver's handler and a kick that the sender owes after which everything sent has been handed
      over, in order; no further send is needed. */
  lemma EverythingArrives(s: State, g: Config, side: Side, a: Answers)
    requires Reachable(s, g) && s.phase.Ready? && CoreOf(s, side).up
    ensures exists es, t ::
              && HandlerRun(s, es, t, side, a)
              && RxChannel(t, side).sent == RxChannel(s, side).sent == RxChannel(t, side).delivered
  {
    BuffersComeBack(s, g, side, a);
  }

  /** The sender's half: such a run also brings back every buffer that neither the sender nor the
      application holds, so that, unless they hold all n, an allocation that waits finds one. If the
      callbacks hold nothing, the application holds no more than before. */
  lemma BuffersComeBack(s: State, g: Config, side: Side, a: Answers)
    requires Reachable(s, g) && s.phase.Ready? && CoreOf(s, side).up
    ensures exists es, t ::
              && HandlerRun(s, es, t, side, a)
              && RxChannel(t, side).sent == RxChannel(s, side).sent == RxChannel(t, side).delivered
              && HoldersSame(RxChannel(s, side), RxChannel(t, side), a) && AllBack(RxChannel(t, side), g.n)
              && |Pending(RxChannel(t, side).free)| == g.n - Out(RxChannel(t, side))
              && (NeverHolds(a) ==> Out(RxChannel(t, side)) == Out(RxChannel(s, side)))
  {
    hide Reachable, Inv, HandlerRun, ChannelInv, Done, AllBack, NeverHolds, Pending;
    ReachableInv(s, g);
    var es, t := Arrives(s, g, side, a);
    ReadyParts(t, g, side);
    TableSize(t, g, side);
    DoneMeansBack(RxChannel(t, side));
    SomethingBack(RxChannel(t, side), g.n);
  }

  lemma TableSize(t: State, g: Config, side: Side)
    requires Inv(t, g) && t.phase.Ready?
    ensures |RxChannel(t, side).desc| == g.n
  {
    hide ChannelInv, AnyChannel, Early, CoresOk, Wakeups;
  }

  /** Nothing is ever added to what is pending in such a run. */
  lemma EventOnlyTakes(s: State, g: Config, side: Side, a: Answers, e: Event)
    requires Inv(s, g) && s.phase.Ready? && Possible(s, e) && Handles(s, e, side, a)
    requires Left(RxChannel(s, side)) == 0
    ensures Next(s, e).phase == s.phase && CoreOf(Next(s, e), side).up == CoreOf(s, side).up
    ensures RxChannel(Next(s, e), side).sent == RxChannel(s, side).sent && Left(RxChannel(Next(s, e), side)) == 0
  {
    hide Inv, ChannelInv, Left, CanConsume, DrainStep, CanEnd, Next, DoConsume;
    HandlerFrame(s, side, a, e);
    match e {
      case Consume(_, t) =>
        ReadyParts(s, g, side);
        ConsumeOnlyTakes(s, side, t);
        NextConsume(s, side, t);
      case _ =>
        CoresOnly(s, e);
    }
  }

  lemma NextConsume(s: State, side: Side, t: Step)
    requires CanConsume(s, side, t)
    ensures Possible(s, Consume(side, t)) && Next(s, Consume(side, t)) == DoConsume(s, side, t)
  {
    hide CanConsume, DoConsume;
  }

  lemma HandlerFrame(s: State, side: Side, a: Answers, e: Event)
    requires Possible(s, e) && Handles(s, e, side, a)
    ensures Next(s, e).phase == s.phase && CoreOf(Next(s, e), side).up == CoreOf(s, side).up
  {
    hide CanConsume, CanEnd, DrainStep, Apply, DoTest, DoKick;
    match e {
      case Kick(_) => KickFrame(s, side);
      case IsrTest(_) => TestFrame(CoreOf(s, side));
      case _ =>
    }
  }

  lemma KickFrame(s: State, side: Side)
    ensures DoKick(s, Other(side)).phase == s.phase && CoreOf(DoKick(s, Other(side)), side).up == CoreOf(s, side).up
  {
  }

  lemma TestFrame(k: Core)
    ensures DoTest(k).up == k.up
  {
  }

  lemma ConsumeOnlyTakes(s: State, side: Side, t: Step)
    requires CanConsume(s, side, t) && ChannelInv(RxChannel(s, side)) && Left(RxChannel(s, side)) == 0
    ensures var c' := RxChannel(DoConsume(s, side, t), side); c'.sent == RxChannel(s, side).sent && Left(c') == 0
  {
    hide ChannelInv, LaneInv, Enabled, Apply, Left, ConsumerStep;
    DataLaneInv(RxChannel(s, side));
    StepOnlyTakes(RxChannel(s, side), t);
  }

  lemma StepOnlyTakes(c: Channel, t: Step)
    requires LaneInv(c.data) && ConsumerStep(t) && Enabled(c, t) && Left(c) == 0
    ensures Left(Apply(c, t)) == 0 && Apply(c, t).sent == c.sent
  {
    NotPublishing(t);
    hide LaneInv, Enabled, Apply, ConsumerStep, Pending;
    ConsumerFrames(c, t);
    HistoryShape(c, t);
  }

  lemma NotPublishing(t: Step)
    requires ConsumerStep(t)
    ensures t != DataWrite(Publish)
  {
  }

  /** While messages are left, a run of handler events is no longer than the potential it has used up. */
  lemma {:induction false} HandlerRunBounded(s: State, g: Config, side: Side, a: Answers, es: seq<Event>, t: State)
    requires Inv(s, g) && s.phase.Ready? && CoreOf(s, side).up && HandlerRun(s, es, t, side, a)
    ensures Inv(t, g) && t.phase.Ready? && CoreOf(t, side).up
    ensures RxChannel(t, side).sent == RxChannel(s, side).sent
    ensures Left(RxChannel(s, side)) == 0 ==> Left(RxChannel(t, side)) == 0
    ensures Left(RxChannel(t, side)) > 0 ==> |es| + Potential(t, side) <= Potential(s, side)
    decreases |es|
  {
    hide Inv, Possible, Next, Handles, Left, Potential;
    if es != [] {
      EventKeeps(s, g, es[0]);
      if Left(RxChannel(s, side)) > 0 {
        EveryEventAdvances(s, g, side, a, es[0]);
      } else {
        EventOnlyTakes(s, g, side, a, es[0]);
      }
      HandlerRunBounded(Next(s, es[0]), g, side, a, es[1..], t);
    }
  }

  /** Not only some run: no run of handler events, whatever the order and whatever the application
      answers, gets stuck or goes on for ever before everything has been handed over. As long as
      something is missing another event is possible, and the run is bounded from the start. */
  lemma EveryRunArrives(s: State, g: Config, side: Side, a: Answers, es: seq<Event>, t: State)
    requires Reachable(s, g) && s.phase.Ready? && CoreOf(s, side).up && HandlerRun(s, es, t, side, a)
    ensures RxChannel(t, side).sent == RxChannel(s, side).sent
    ensures RxChannel(t, side).delivered != RxChannel(t, side).sent ==>
              |es| <= Potential(s, side) && exists e :: Possible(t, e) && Handles(t, e, side, a)
  {
    hide Reachable, Inv, HandlerRun, Potential, ChannelInv, Possible, Handles, NextMove, Left;
    ReachableInv(s, g);
    HandlerRunBounded(s, g, side, a, es, t);
    ReadyParts(t, g, side);
    if Left(RxChannel(t, side)) == 0 {
      NoneLeft(RxChannel(t, side));
    } else {
      NextMoveOk(t, g, side, a);
    }
  }
}
