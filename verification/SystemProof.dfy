/** Every event keeps the invariant of the link, hence it holds in every state of every run. */
module SystemProof {
  import opened Words
  import opened Lanes
  import opened Channels
  import opened ChannelSteps
  import opened System
  import opened VringLayout

  // ---- what a channel step leaves alone

  /** A producer step changes neither the consumer's part nor, unless it publishes, what is pending. */
  ghost predicate ProducerFrame(c: Channel, c': Channel, published: bool) {
    && c'.cfg == c.cfg && c'.desc == c.desc
    && c'.qLocal == c.qLocal && c'.qApp == c.qApp
    && c'.data.ring.reader == c.data.ring.reader
    && c'.data.ring.kind == c.data.ring.kind
    && (!published ==> Pending(c'.data) == Pending(c.data))
  }

  lemma BufferFrame(c: Channel, d: nat, b: Buffer)
    ensures SetBuffer(c, d, b) == c.(mem := SetBuffer(c, d, b).mem)
  {
  }

  lemma DataWriteFrame(c: Channel, w: WriterStep)
    requires CanWrite(c.data.ring, w)
    ensures var l' := Write(c.data, w);
            && l'.ring.reader == c.data.ring.reader && l'.ring.kind == c.data.ring.kind
            && (!w.Publish? ==> Pending(l') == Pending(c.data))
  {
  }

  lemma ProducerFrames(c: Channel, t: Step)
    requires ProducerStep(t) && Enabled(c, t)
    ensures ProducerFrame(c, Apply(c, t), t == DataWrite(Publish))
  {
    hide CanRead, CanWrite, Write, Read, Pending, TakenLen, View;
    match t {
      case HandOut(d) => BufferFrame(c, d, BufferOf(c, d).(idx := d % U16));
      case Header(d, src, dst, size, flags) =>
        BufferFrame(c, d, BufferOf(c, d).(src := src, dst := dst, len := size % U16, flags := flags % U16));
      case Copy(d, bytes) =>
        CopyFrame(c, d, bytes);
      case AppWrite(d, payload) => BufferFrame(c, d, BufferOf(c, d).(payload := payload));
      case Send(d) =>
        CanPlaceAny(c.data.ring, Slot(0, 0));
        DataWriteFrame(c, Place(MakeItem(c.data.ring.kind, d, Lookup(c.pLen, d))));
      case SendNoCopy(d) =>
        CanPlaceAny(c.data.ring, Slot(0, 0));
        var i := BufferOf(c, d).idx;
        DataWriteFrame(c, Place(MakeItem(c.data.ring.kind, i, DescLen(c, i))));
      case DataWrite(w) => DataWriteFrame(c, w);
      case Alloc(_) =>
    }
  }

  lemma CopyFrame(c: Channel, d: nat, bytes: seq<u8>)
    ensures DoCopy(c, d, bytes) == c.(mem := DoCopy(c, d, bytes).mem)
  {
  }

  /** A consumer step adds nothing to what is pending; only receiving touches the data lane. */
  ghost predicate ConsumerFrame(c: Channel, c': Channel, received: bool) {
    && c'.cfg == c.cfg && c'.desc == c.desc
    && c'.data.ring.kind == c.data.ring.kind
    && (Pending(c.data) == [] ==> Pending(c'.data) == [])
    && (!received ==> c'.data == c.data)
  }

  lemma DataReadFrame(c: Channel, r: ReaderStep)
    requires LaneInv(c.data) && CanRead(c.data.ring, r)
    ensures var l' := Read(c.data, r);
            l'.ring.kind == c.data.ring.kind && (Pending(c.data) == [] ==> Pending(l') == [])
  {
    ReadFrame(c.data, r);
    PendingAfterRead(c.data, r);
  }

  lemma ClearedFrame(c: Channel, d: nat)
    ensures Cleared(c, d) == c.(mem := Cleared(c, d).mem)
  {
  }

  lemma ConsumerFrames(c: Channel, t: Step)
    requires LaneInv(c.data) && ConsumerStep(t) && Enabled(c, t)
    ensures ConsumerFrame(c, Apply(c, t), t.Receive?)
    ensures t.Release? || t.FreeWrite? ==> Apply(c, t).qLocal == c.qLocal
  {
    hide LaneInv, CanRead, CanWrite, Write, Read, Pending, TakenLen, View, Cleared;
    match t {
      case Receive(r) => DataReadFrame(c, r);
      case Hold(d) => BufferFrame(c, d, BufferOf(c, d).(idx := d % U16));
      case Free(d) =>
        CanPlaceAny(c.free.ring, Slot(0, 0));
        ClearedFrame(c.(free := Write(c.free, Place(MakeItem(c.free.ring.kind, d, Lookup(c.qLen, d)))),
                        qLocal := c.qLocal - multiset{d}), d);
      case Release(d) =>
        CanPlaceAny(c.free.ring, Slot(0, 0));
        var i := BufferOf(c, d).idx;
        ClearedFrame(c.(free := Write(c.free, Place(MakeItem(c.free.ring.kind, i, DescLen(c, i)))),
                        qApp := c.qApp - multiset{d}), d);
      case FreeWrite(_) =>
    }
  }

  // ---- before the master is ready

  lemma NoneHeld(c: Channel, d: nat)
    requires |Held(c)| == 0
    ensures d !in c.pLocal && d !in c.pApp && d !in c.qLocal && d !in c.qApp && |c.qLocal| == 0
  {
    assert Held(c) == multiset{};
    assert Held(c)[d] == 0;
  }

  /** Before the master is ready no core can transmit or consume: the remote's calls fail on its
      link state, and its handler has no doorbell to serve. */
  lemma NothingMovesEarly(s: State, side: Side, t: Step)
    requires Early(s) && !s.phase.Ready?
    ensures !CanTransmit(s, side, t) && !CanConsume(s, side, t)
  {
    match t {
      case HandOut(d) => NoneHeld(s.toMaster, d);
      case Header(d, _, _, _, _) => NoneHeld(s.toMaster, d);
      case Copy(d, _) => NoneHeld(s.toMaster, d);
      case AppWrite(d, _) => NoneHeld(s.toMaster, d);
      case Send(d) => NoneHeld(s.toMaster, d);
      case Release(d) => NoneHeld(s.toRemote, d);
      case _ =>
    }
  }

  // ---- transmitting and consuming

  lemma ReadyToMove(s: State, g: Config, side: Side, t: Step)
    requires Inv(s, g) && (CanTransmit(s, side, t) || CanConsume(s, side, t))
    ensures s.phase.Ready?
  {
    hide CanTransmit, CanConsume, ChannelsOk, SeedOk, CoresOk, Wakeups, Unused;
    if !s.phase.Ready? { NothingMovesEarly(s, side, t); }
  }

  /** What the wakeup invariant needs when the transmit channel of a side changes. */
  lemma AwakeAfterSend(c: Channel, c': Channel, receiver: Core, rx: Side, sender: Core, sender': Core, published: bool)
    requires DrainOk(c, receiver, rx) && Awake(c, receiver, rx, sender)
    requires ProducerFrame(c, c', published)
    requires sender' == if published then sender.(kickDue := true) else sender
    ensures DrainOk(c', receiver, rx) && Awake(c', receiver, rx, sender')
  {
    hide Pending;
  }

  lemma TransmitKeeps(s: State, g: Config, side: Side, t: Step)
    requires Inv(s, g) && CanTransmit(s, side, t)
    ensures Inv(DoTransmit(s, side, t), g)
  {
    hide ChannelInv, Enabled, Apply, Awake, DrainOk, ConfigOk, AnyChannel, Unused, Still, ProducerStep;
    ReadyToMove(s, g, side, t);
    var c := TxChannel(s, side);
    StepKeeps(c, t);
    ProducerFrames(c, t);
    var k := CoreOf(s, side);
    var k' := CoreOf(DoTransmit(s, side, t), side);
    AwakeAfterSend(c, Apply(c, t), CoreOf(s, Other(side)), Other(side), k, k', t == DataWrite(Publish));
    DrainSame(RxChannel(s, side), CoreOf(s, Other(side)), side, k, k');
  }

  /** Handlers do not change when a core's kick or freed flag does. */
  lemma DrainSame(c: Channel, sender: Core, side: Side, k: Core, k': Core)
    requires DrainOk(c, k, side) && Awake(c, k, side, sender)
    requires k' == k.(kickDue := k'.kickDue, freed := k'.freed)
    ensures DrainOk(c, k', side) && Awake(c, k', side, sender)
  {
    hide Pending;
  }

  lemma AwakeAfterReceive(c: Channel, c': Channel, receiver: Core, receiver': Core, rx: Side, sender: Core, t: Step)
    requires DrainOk(c, receiver, rx) && Awake(c, receiver, rx, sender)
    requires ConsumerFrame(c, c', t.Receive?) && ConsumerStep(t)
    requires t.Receive? || t.Hold? || t.Free? ==> Draining(receiver, rx)
    requires t.Release? || t.FreeWrite? ==> c'.qLocal == c.qLocal
    requires receiver' == receiver.(freed := receiver'.freed)
    ensures DrainOk(c', receiver', rx) && Awake(c', receiver', rx, sender)
  {
    hide Pending;
  }

  lemma ConsumeKeeps(s: State, g: Config, side: Side, t: Step)
    requires Inv(s, g) && CanConsume(s, side, t)
    ensures Inv(DoConsume(s, side, t), g)
  {
    hide ChannelInv, LaneInv, Enabled, Apply, Awake, DrainOk, ConfigOk, AnyChannel, Unused, Still, ConsumerStep;
    ReadyToMove(s, g, side, t);
    var c := RxChannel(s, side);
    DataLaneInv(c);
    StepKeeps(c, t);
    ConsumerFrames(c, t);
    var k := CoreOf(s, side);
    var k' := CoreOf(DoConsume(s, side, t), side);
    AwakeAfterReceive(c, Apply(c, t), k, k', side, CoreOf(s, Other(side)), t);
    SenderSame(TxChannel(s, side), CoreOf(s, Other(side)), Other(side), k, k');
  }

  lemma SenderSame(c: Channel, receiver: Core, rx: Side, k: Core, k': Core)
    requires Awake(c, receiver, rx, k) && k'.kickDue == k.kickDue
    ensures Awake(c, receiver, rx, k')
  {
  }

  lemma DataLaneInv(c: Channel)
    requires ChannelInv(c)
    ensures LaneInv(c.data)
  {
  }

  // ---- doorbells and interrupts

  /** Changing the cores alone keeps what does not mention them. */
  lemma CoresKeep(s: State, s': State, g: Config)
    requires Inv(s, g)
    requires s' == s.(master := s'.master, remote := s'.remote)
    requires CoresOk(s') && Wakeups(s') && Early(s')
    ensures Inv(s', g)
  {
    hide ChannelInv, Unused, Seeded, ConfigOk, AnyChannel, Wakeups, CoresOk, Early;
  }

  lemma KickKeeps(s: State, g: Config, side: Side)
    requires Inv(s, g) && CoreOf(s, side).kickDue
    ensures Inv(DoKick(s, side), g)
  {
    hide ChannelInv, Pending, Unused, Seeded, ConfigOk, AnyChannel;
    CoresKeep(s, DoKick(s, side), g);
  }

  lemma NotifyFreedKeeps(s: State, g: Config, side: Side)
    requires Inv(s, g) && CoreOf(s, side).freed
    ensures Inv(DoNotifyFreed(s, side), g)
  {
    hide ChannelInv, Pending, Unused, Seeded, ConfigOk, AnyChannel;
    CoresKeep(s, DoNotifyFreed(s, side), g);
  }

  lemma IsrEnterKeeps(s: State, g: Config, side: Side)
    requires Inv(s, g) && Possible(s, IsrEnter(side))
    ensures Inv(DoIsrEnter(s, side), g)
  {
    hide ChannelInv, Pending, Unused, Seeded, ConfigOk, AnyChannel;
    CoresKeep(s, DoIsrEnter(s, side), g);
  }

  lemma IsrTestKeeps(s: State, g: Config, side: Side)
    requires Inv(s, g) && Possible(s, IsrTest(side))
    ensures Inv(DoIsrTest(s, side), g)
  {
    hide ChannelInv, Pending, Unused, Seeded, ConfigOk, AnyChannel;
    CoresKeep(s, DoIsrTest(s, side), g);
  }

  /** The remote's link state is set only when the master has rung vring 0, which it does last. */
  lemma TxCallbackKeeps(s: State, g: Config, side: Side)
    requires Inv(s, g) && InTxCallback(CoreOf(s, side), side)
    ensures Inv(DoTxCallback(s, side), g)
  {
    hide ChannelInv, Pending, Unused, Seeded, ConfigOk, AnyChannel;
    CoresKeep(s, DoTxCallback(s, side), g);
  }

  /** The drain loop ends on a ring that is truly empty. */
  lemma DrainEndKeeps(s: State, g: Config, side: Side)
    requires Inv(s, g) && CanEnd(s, side)
    ensures Inv(DoDrainEnd(s, side), g) && Pending(RxChannel(s, side).data) == []
  {
    hide ChannelInv, LaneInv, Pending, Unused, Seeded, ConfigOk, AnyChannel;
    DrainingIsReady(s, g, side);
    DataLaneInv(RxChannel(s, side));
    EqualMeansEmpty(RxChannel(s, side).data);
    CoresKeep(s, DoDrainEnd(s, side), g);
  }

  lemma DrainingIsReady(s: State, g: Config, side: Side)
    requires Inv(s, g) && Draining(CoreOf(s, side), side)
    ensures s.phase.Ready?
  {
    hide ChannelsOk, Unused, SeedOk, CoresOk, Wakeups;
  }

  // ---- initialisation

  /** Where the header is zero, cleared or not, clearing gives a channel at its start. */
  lemma ClearedIsFresh(c: Channel, g: Config, dataKind: Kind, r: Reach)
    requires AnyChannel(c, g, dataKind) && ConfigOk(g)
    requires r.idx || (if dataKind.Used? then c.data else c.free).ring.idx == 0
    ensures FreshChannel(ClearedChannel(c, r), g, dataKind)
  {
    hide ConfigOk;
    ClearedIsFreshLane(c.data, dataKind, g.n, r);
    ClearedIsFreshLane(c.free, Opposite(dataKind), g.n, r);
    hide ClearedLane, FreshLane;
  }

  lemma ClearedIsFreshLane(l: Lane, kind: Kind, n: nat, r: Reach)
    requires AnyLane(l, kind, n) && (kind.Used? ==> r.idx || l.ring.idx == 0)
    ensures FreshLane(ClearedLane(l, r), kind, n)
  {
    if kind.Avail? {
      assert ClearedLane(l, r) == EmptyLane(kind, n);
    }
  }

  lemma FreshUnused(c: Channel, g: Config, dataKind: Kind)
    requires FreshChannel(c, g, dataKind) && ConfigOk(g)
    ensures ChannelInv(c) && Unused(c) && c.desc == [] && c.free.ring.writer.WIdle?
    ensures c.cfg == g && c.data.ring.kind == dataKind
  {
    hide ChannelInv;
    FreshChannelInv(c, g, dataKind);
  }

  lemma ClearRingKeeps(s: State, g: Config)
    requires Inv(s, g) && (s.phase.Clear0? || s.phase.Clear1?)
    ensures Inv(DoClearRing(s), g)
  {
    hide ChannelInv, Pending, ConfigOk, ClearedChannel, AnyChannel, FreshChannel;
    AnyShape(s, g);
    if s.phase.Clear0? {
      ClearedIsFresh(s.toMaster, g, Used, g.reach0);
      FreshUnused(ClearedChannel(s.toMaster, g.reach0), g, Used);
    } else {
      ClearedIsFresh(s.toRemote, g, Avail, g.reach1);
      FreshUnused(ClearedChannel(s.toRemote, g.reach1), g, Avail);
    }
    hide Unused, Seeded;
    ClearedWakeups(s, g);
  }

  lemma AnyShape(s: State, g: Config)
    requires Inv(s, g)
    ensures s.toMaster.cfg == g == s.toRemote.cfg
  {
    hide ChannelInv, AnyChannel, Early, SeedOk, CoresOk, Wakeups;
  }

  /** An unused channel needs no wakeup. */
  lemma UnusedNeedsNothing(c: Channel, receiver: Core, side: Side, sender: Core)
    requires Unused(c)
    ensures DrainOk(c, receiver, side) && Awake(c, receiver, side, sender)
  {
    NoneHeld(c, 0);
  }

  lemma EarlyWakeups(s: State)
    requires Unused(s.toMaster) && Unused(s.toRemote)
    ensures Wakeups(s)
  {
    hide Unused, DrainOk, Awake;
    UnusedNeedsNothing(s.toMaster, s.master, Master, s.remote);
    UnusedNeedsNothing(s.toRemote, s.remote, Remote, s.master);
  }

  lemma ClearedWakeups(s: State, g: Config)
    requires Early(s) && (s.phase.Clear0? || s.phase.Clear1?) && Early(DoClearRing(s))
    ensures Wakeups(DoClearRing(s))
  {
    hide Unused, ClearedChannel, Wakeups;
    EarlyWakeups(DoClearRing(s));
  }

  /** Seeding touches the free lane and the descriptor table only. */
  lemma SeedUnused(c: Channel, c': Channel)
    requires Unused(c) && c'.data == c.data
    requires c'.free.ring.reader == c.free.ring.reader && c'.free.taken == c.free.taken
    requires Held(c') == Held(c)
    ensures Unused(c')
  {
  }

  lemma SeedBufferShape(c: Channel, a: nat)
    requires CanSeed(c, a)
    ensures var c' := DoSeed(c, a);
            && c'.data == c.data && c'.free.ring.reader == c.free.ring.reader && c'.free.taken == c.free.taken
            && Held(c') == Held(c) && c'.cfg == c.cfg
  {
    CanPlaceAny(c.free.ring, Slot(0, 0));
    hide CanWrite, Held;
    WriteFrame(c.free, Place(MakeItem(c.free.ring.kind, |c.desc|, c.cfg.bufferSize)));
  }

  lemma SeedWriteShape(c: Channel, w: WriterStep)
    requires CanWrite(c.free.ring, w)
    ensures var c' := DoFreeWrite(c, w);
            && c'.data == c.data && c'.free.ring.reader == c.free.ring.reader && c'.free.taken == c.free.taken
            && Held(c') == Held(c) && c'.cfg == c.cfg && c'.desc == c.desc
  {
    WriteFrame(c.free, w);
  }

  lemma SeedStepKeeps(s: State, g: Config, c': Channel)
    requires Inv(s, g) && Seeding(s) && ChannelInv(c') && Unused(c')
    requires var c := SeedChannel(s);
             && c'.data == c.data && c'.cfg == c.cfg
             && c'.free.ring.reader == c.free.ring.reader
    ensures Inv(SetSeed(s, c'), g)
  {
    hide ChannelInv, Unused, Seeded, ConfigOk, AnyChannel, Wakeups;
    EarlyWakeups(SetSeed(s, c'));
  }

  lemma SeedBufferKeeps(s: State, g: Config, a: nat)
    requires Inv(s, g) && Seeding(s) && CanSeed(SeedChannel(s), a)
    ensures Inv(SetSeed(s, DoSeed(SeedChannel(s), a)), g)
  {
    hide ChannelInv, Unused, Seeded, ConfigOk, AnyChannel, Wakeups, CanWrite, DoSeed, SeedOk;
    var c := SeedChannel(s);
    SeedKeeps(c, a);
    SeedBufferShape(c, a);
    SeedUnused(c, DoSeed(c, a));
    SeedStepKeeps(s, g, DoSeed(c, a));
  }

  lemma SeedWriteKeeps(s: State, g: Config, w: WriterStep)
    requires Inv(s, g) && Seeding(s) && !w.Place? && CanWrite(SeedChannel(s).free.ring, w)
    ensures Inv(SetSeed(s, DoFreeWrite(SeedChannel(s), w)), g)
  {
    hide ChannelInv, Unused, Seeded, ConfigOk, AnyChannel, Wakeups, CanWrite, DoFreeWrite, SeedOk;
    var c := SeedChannel(s);
    FreeWriteKeeps(c, w);
    SeedWriteShape(c, w);
    SeedUnused(c, DoFreeWrite(c, w));
    SeedStepKeeps(s, g, DoFreeWrite(c, w));
  }

  lemma TableFull(c: Channel)
    requires ChannelInv(c) && |c.desc| >= c.cfg.n
    ensures |c.desc| == c.cfg.n
  {
  }

  lemma SeedDoneKeeps(s: State, g: Config)
    requires Inv(s, g) && Seeding(s)
    requires |SeedChannel(s).desc| >= SeedChannel(s).cfg.n && SeedChannel(s).free.ring.writer.WIdle?
    ensures Inv(DoSeedDone(s), g)
  {
    hide ChannelInv, Unused, ConfigOk, AnyChannel, Wakeups, Pending, Still, UpOk, Clean;
    TableFull(SeedChannel(s));
    EarlyWakeups(DoSeedDone(s));
  }

  lemma MasterLinkKeeps(s: State, g: Config)
    requires Inv(s, g) && s.phase.SetLink?
    ensures Inv(DoMasterLink(s), g)
  {
    hide ChannelInv, Unused, ConfigOk, AnyChannel, Wakeups, Pending;
    EarlyWakeups(DoMasterLink(s));
  }

  lemma MasterKickKeeps(s: State, g: Config)
    requires Inv(s, g) && s.phase.FirstKick?
    ensures Inv(DoMasterKick(s), g)
  {
    hide ChannelInv, Unused, ConfigOk, AnyChannel, Wakeups, Pending;
    EarlyWakeups(DoMasterKick(s));
  }

  lemma RemoteInitKeeps(s: State, g: Config)
    requires Inv(s, g) && !s.remote.up
    ensures Inv(DoRemoteInit(s), g)
  {
    hide ChannelInv, Unused, ConfigOk, AnyChannel, Pending;
  }

  // ---- runs

  lemma InitInv(s: State, g: Config)
    requires Init(s, g)
    ensures Inv(s, g)
  {
    hide AnyLane, ChannelInv, ConfigOk;
    AnyUnused(s.toMaster, g, Used);
    AnyUnused(s.toRemote, g, Avail);
    hide Wakeups, Unused;
    EarlyWakeups(s);
  }

  lemma AnyUnused(c: Channel, g: Config, dataKind: Kind)
    requires AnyChannel(c, g, dataKind)
    ensures Unused(c) && c.cfg == g && c.desc == [] && c.data.ring.kind == dataKind
  {
  }

  /** Every event keeps the invariant. */
  lemma EventKeeps(s: State, g: Config, e: Event)
    requires Inv(s, g) && Possible(s, e)
    ensures Inv(Next(s, e), g)
  {
    hide Inv, CanSeed, CanWrite, CanTransmit, CanConsume, CanEnd;
    match e {
      case ClearRing => ClearRingKeeps(s, g);
      case SeedBuffer(a) => SeedBufferKeeps(s, g, a);
      case SeedWrite(w) => SeedWriteKeeps(s, g, w);
      case SeedDone => SeedDoneKeeps(s, g);
      case MasterLink => MasterLinkKeeps(s, g);
      case MasterKick => MasterKickKeeps(s, g);
      case RemoteInit => RemoteInitKeeps(s, g);
      case Transmit(side, t) => TransmitKeeps(s, g, side, t);
      case Kick(side) => KickKeeps(s, g, side);
      case Consume(side, t) => ConsumeKeeps(s, g, side, t);
      case NotifyFreed(side) => NotifyFreedKeeps(s, g, side);
      case IsrEnter(side) => IsrEnterKeeps(s, g, side);
      case IsrTest(side) => IsrTestKeeps(s, g, side);
      case TxCallback(side) => TxCallbackKeeps(s, g, side);
      case DrainEnd(side) => DrainEndKeeps(s, g, side);
    }
  }

  lemma {:induction false} RunKeeps(s: State, g: Config, es: seq<Event>, t: State)
    requires Inv(s, g) && Reaches(s, es, t)
    ensures Inv(t, g)
    decreases |es|
  {
    hide Inv, Possible, Next;
    if es != [] {
      EventKeeps(s, g, es[0]);
      RunKeeps(Next(s, es[0]), g, es[1..], t);
    }
  }

  /** The invariant holds in every reachable state. */
  lemma ReachableInv(t: State, g: Config)
    requires Reachable(t, g)
    ensures Inv(t, g)
  {
    hide Inv, Init, Reaches;
    var s, es :| Init(s, g) && Reaches(s, es, t);
    InitInv(s, g);
    RunKeeps(s, g, es, t);
  }
}
