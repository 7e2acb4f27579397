/** What holds in every reachable state of a link, whatever the interleaving and however long the run. */
module LinkTheorems {
  import opened Words
  import opened Lanes
  import opened Channels
  import opened ChannelSteps
  import opened System
  import opened SystemProof

  // ---- the rings

  /** What is about to be loaded is the oldest pending entry, and what is about to be stored hits no
      pending entry. */
  ghost predicate AccessesOk(l: Lane) {
    && RingWf(l.ring)
    && (l.ring.reader.RAt? || l.ring.reader.RHalf? ==>
          Pending(l) != [] && l.ring.slots[l.ring.reader.pos] == Pending(l)[0])
    && (!l.ring.writer.WIdle? ==>
          forall k | l.taken <= k < |l.log| :: k % l.ring.n != l.ring.writer.pos)
  }

  /** The 16-bit index and cursor decide emptiness, and masked they are the counters modulo n. */
  ghost predicate IndexesOk(l: Lane) {
    var r := l.ring;
    && RingWf(r)
    && (r.reader.RIdle? ==> (r.idx == r.cursor <==> Pending(l) == []))
    && Masked(r.idx, r.n) == |l.log| % r.n
    && (r.reader.RIdle? ==> Masked(r.cursor, r.n) == l.taken % r.n)
  }

  lemma LaneAccessesOk(l: Lane)
    requires LaneInv(l)
    ensures AccessesOk(l)
  {
    hide Masked;
    if l.ring.reader.RAt? || l.ring.reader.RHalf? { LoadSeesOldest(l); }
    if !l.ring.writer.WIdle? {
      StoreHitsNoPending(l);
      forall k | l.taken <= k < |l.log| ensures k % l.ring.n != l.ring.writer.pos {
        AtIsMod(k, l.ring.n);
      }
    }
  }

  lemma LaneIndexesOk(l: Lane)
    requires LaneInv(l)
    ensures IndexesOk(l)
  {
    hide Masked, At;
    if l.ring.reader.RIdle? { EqualMeansEmpty(l); }
    MaskedCounter(|l.log|, l.ring.n);
    MaskedCounter(l.taken, l.ring.n);
  }

  /** The two lanes of the vrings that have been cleared. */
  ghost predicate IsLane(t: State, l: Lane) {
    || (Cleared0(t) && (l == t.toMaster.data || l == t.toMaster.free))
    || (Cleared1(t) && (l == t.toRemote.data || l == t.toRemote.free))
  }

  /** No core ever loads an unpublished or overwritten entry or overwrites one that is not read yet,
      although no writer tests for a full ring. */
  lemma RingAccesses(t: State, g: Config, l: Lane)
    requires Reachable(t, g) && IsLane(t, l)
    ensures AccessesOk(l) && IndexesOk(l)
  {
    hide Reachable, LaneInv, ConfigOk, AccessesOk, IndexesOk, Early, SeedOk, CoresOk, Wakeups,
         DescOk, Conserved, LensOk, Stashed, Fifo, AnyChannel;
    ReachableInv(t, g);
    LaneAccessesOk(l);
    LaneIndexesOk(l);
  }

  // ---- conservation

  ghost predicate IsChannel(t: State, c: Channel) {
    (Cleared0(t) && c == t.toMaster) || (Cleared1(t) && c == t.toRemote)
  }

  lemma ReachableChannel(t: State, g: Config, c: Channel)
    requires Reachable(t, g) && IsChannel(t, c)
    ensures ChannelInv(c) && c.cfg == g && (t.phase.Ready? ==> |c.desc| == g.n)
  {
    hide Reachable, ChannelInv;
    ReachableInv(t, g);
  }

  /** In every reachable state each descriptor index that has been set up is in exactly one place, and
      nothing else is anywhere; once the master is ready these are all n. */
  lemma Conservation(t: State, g: Config, c: Channel)
    requires Reachable(t, g) && IsChannel(t, c)
    ensures forall d: nat :: Total(c)[d] == if d < |c.desc| then 1 else 0
    ensures t.phase.Ready? ==> |c.desc| == g.n
  {
    hide Reachable, IsChannel, ChannelInv, Total, AllIds;
    ReachableChannel(t, g, c);
    ConservedPart(c);
  }

  lemma ConservedPart(c: Channel)
    requires ChannelInv(c)
    ensures Total(c) == AllIds(|c.desc|)
  {
    hide LaneInv, DescOk, LensOk, Stashed, Fifo, Total, AllIds;
  }

  /** Any index being written to a ring is below n, so the range check of
      virtqueue_add_consumed_buffer, which lets n itself pass, never decides anything. */
  lemma WrittenIndexInRange(t: State, g: Config, l: Lane)
    requires Reachable(t, g) && IsLane(t, l) && !l.ring.writer.WIdle?
    ensures l.ring.writer.item.id < g.n
  {
    hide Reachable, LaneInv, ChannelInv, LensOk, Stashed, Fifo;
    var c := if Cleared0(t) && (l == t.toMaster.data || l == t.toMaster.free) then t.toMaster else t.toRemote;
    ReachableChannel(t, g, c);
    IndexInTable(c, l);
  }

  lemma IndexInTable(c: Channel, l: Lane)
    requires ChannelInv(c) && (l == c.data || l == c.free) && !l.ring.writer.WIdle?
    ensures l.ring.writer.item.id < c.cfg.n
  {
    hide LaneInv, LensOk, Stashed, Fifo;
    assert l.ring.writer.item.id in Total(c);
    EverywhereInTable(c, l.ring.writer.item.id);
  }

  /** Every length that an allocation or a receive reports is RL_BUFFER_SIZE; what the zero-copy
      allocation passes on, less the header, is never smaller than the payload size. */
  lemma ReportedLength(t: State, g: Config, c: Channel, l: Lane)
    requires Reachable(t, g) && IsChannel(t, c) && (l == c.data || l == c.free) && l.ring.reader.RHas?
    ensures TakenLen(c, l) == g.bufferSize
    ensures HEADER_SIZE < TakenLen(c, l) && g.payloadSize <= TakenLen(c, l) - HEADER_SIZE
  {
    hide Reachable, LaneInv, TakenLen, DescOk, Conserved, LensOk, Stashed, Fifo;
    ReachableChannel(t, g, c);
    TakenLenIsBufferSize(c, l);
  }

  // ---- first in, first out

  /** What the consumer has been handed is, message by message, what the producer published first. */
  lemma Delivery(t: State, g: Config, c: Channel)
    requires Reachable(t, g) && IsChannel(t, c)
    ensures c.delivered <= c.sent
    ensures |c.sent| == |c.delivered| + |Pending(c.data)|
  {
    hide Reachable, ChannelInv, IsChannel;
    ReachableChannel(t, g, c);
    DeliveredPart(c);
  }

  lemma DeliveredPart(c: Channel)
    requires ChannelInv(c)
    ensures c.delivered <= c.sent && |c.sent| == |c.delivered| + |Pending(c.data)|
  {
    hide LaneInv, DescOk, Conserved, LensOk, Stashed;
  }

  /** The abstract channel: the messages published and not yet taken. */
  function Queue(c: Channel): seq<Msg> {
    if |c.delivered| <= |c.sent| then c.sent[|c.delivered|..] else []
  }

  /** The message in the buffer that the producer is about to publish. */
  function NextMessage(c: Channel): Msg {
    if c.data.ring.writer.WIdle? then Msg(0, 0, []) else View(BufferOf(c, c.data.ring.writer.item.id))
  }

  /** Each step of either core is, on the abstract queue, an append, a removal of the head, or nothing. */
  lemma StepRefinesQueue(c: Channel, t: Step)
    requires ChannelInv(c) && Enabled(c, t)
    ensures var c' := Apply(c, t);
            if t == DataWrite(Publish) then
              && Queue(c') == Queue(c) + [NextMessage(c)]
              && c'.sent == c.sent + [NextMessage(c)] && c'.delivered == c.delivered
            else if t == Receive(Take) then
              && Queue(c) != [] && Queue(c') == Queue(c)[1..]
              && c'.delivered == c.delivered + [Queue(c)[0]] && c'.sent == c.sent
            else
              Queue(c') == Queue(c) && c'.sent == c.sent && c'.delivered == c.delivered
  {
    hide ChannelInv, Enabled, Apply, View, Queue;
    var c' := Apply(c, t);
    StepKeeps(c, t);
    HistoryShape(c, t);
    FifoPart(c);
    FifoPart(c');
    QueueMoves(c, c', NextMessage(c), t == DataWrite(Publish), t == Receive(Take));
  }

  lemma FifoPart(c: Channel)
    requires ChannelInv(c)
    ensures Fifo(c)
  {
  }

  lemma QueueMoves(c: Channel, c': Channel, m: Msg, published: bool, taken: bool)
    requires Fifo(c) && Fifo(c') && !(published && taken)
    requires c'.sent == (if published then c.sent + [m] else c.sent)
    requires |c'.delivered| == |c.delivered| + (if taken then 1 else 0)
    requires !taken ==> c'.delivered == c.delivered
    ensures if published then Queue(c') == Queue(c) + [m]
            else if taken then
              Queue(c) != [] && Queue(c') == Queue(c)[1..] && c'.delivered == c.delivered + [Queue(c)[0]]
            else Queue(c') == Queue(c) && c'.sent == c.sent && c'.delivered == c.delivered
  {
    hide Fifo;
    QueueOf(c);
    QueueOf(c');
    if published {
      SuffixPush(c.sent, |c.delivered|, m);
    } else if taken {
      SuffixPop(c.sent, |c.delivered|);
    }
  }

  lemma SuffixPush(s: seq<Msg>, k: nat, m: Msg)
    requires k <= |s|
    ensures (s + [m])[k..] == s[k..] + [m]
  {
  }

  lemma SuffixPop(s: seq<Msg>, k: nat)
    requires k < |s|
    ensures s[k..] == [s[k]] + s[k + 1..] && s[k..][1..] == s[k + 1..] && s[..k + 1] == s[..k] + [s[k]]
  {
  }

  lemma QueueOf(c: Channel)
    requires Fifo(c)
    ensures |c.delivered| <= |c.sent| && c.delivered == c.sent[..|c.delivered|]
  {
  }

  lemma HistoryShape(c: Channel, t: Step)
    requires Enabled(c, t)
    ensures var c' := Apply(c, t);
            && c'.sent == (if t == DataWrite(Publish) then c.sent + [NextMessage(c)] else c.sent)
            && |c'.delivered| == |c.delivered| + (if t == Receive(Take) then 1 else 0)
            && (t != Receive(Take) ==> c'.delivered == c.delivered)
  {
    if t.DataWrite? || t.Receive? {
      hide CanRead, CanWrite, NextMessage, View, BufferOf, TakenLen, Write, Read;
      if t.DataWrite? { PublishedMessage(c, t.write); }
    } else {
      hide Enabled, Apply, NextMessage;
      NoHistory(c, t);
    }
  }

  lemma NoHistory(c: Channel, t: Step)
    requires Enabled(c, t) && !t.DataWrite? && !t.Receive?
    ensures Apply(c, t).sent == c.sent && Apply(c, t).delivered == c.delivered
  {
    hide CanRead, CanWrite, CanSeed, BufferOf, HasBuffer, TakenLen, Write, Read, Zeroed, DescLen;
  }

  lemma PublishedMessage(c: Channel, w: WriterStep)
    requires CanWrite(c.data.ring, w)
    ensures w.Publish? ==> NextMessage(c) == View(BufferOf(c, c.data.ring.writer.item.id))
  {
  }

  /** Nothing happens on the abstract queue, */
  predicate Stutter(c: Channel, c': Channel) {
    c'.sent == c.sent && c'.delivered == c.delivered
  }

  /** or the message being published is appended, or the oldest one is handed over. */
  predicate FifoStep(c: Channel, c': Channel) {
    || (Queue(c') == Queue(c) && Stutter(c, c'))
    || (&& Queue(c') == Queue(c) + [NextMessage(c)]
        && c'.sent == c.sent + [NextMessage(c)] && c'.delivered == c.delivered)
    || (&& Queue(c) != [] && Queue(c') == Queue(c)[1..]
        && c'.delivered == c.delivered + [Queue(c)[0]] && c'.sent == c.sent)
  }

  lemma StepIsFifo(c: Channel, t: Step)
    requires ChannelInv(c) && Enabled(c, t)
    ensures FifoStep(c, Apply(c, t))
  {
    hide ChannelInv, Enabled, Apply, Queue, NextMessage;
    StepRefinesQueue(c, t);
  }

  lemma StutterIsFifo(c: Channel, c': Channel)
    requires Stutter(c, c')
    ensures FifoStep(c, c')
  {
  }

  /** The link refines two FIFO queues: each event of any run appends to one of them, takes the head
      of one of them, or changes neither. */
  lemma LinkRefinesFifos(t: State, g: Config, e: Event)
    requires Reachable(t, g) && Possible(t, e)
    ensures var t' := Next(t, e);
            && FifoStep(t.toMaster, t'.toMaster) && FifoStep(t.toRemote, t'.toRemote)
            && (Stutter(t.toMaster, t'.toMaster) || Stutter(t.toRemote, t'.toRemote))
  {
    hide Reachable, Inv, FifoStep, Stutter, Possible, Next;
    ReachableInv(t, g);
    match e {
      case Transmit(side, s) => TransmitRefines(t, g, side, s);
      case Consume(side, s) => ConsumeRefines(t, g, side, s);
      case _ => OtherRefines(t, g, e);
    }
  }

  lemma TransmitRefines(t: State, g: Config, side: Side, s: Step)
    requires Inv(t, g) && Possible(t, Transmit(side, s))
    ensures var t' := Next(t, Transmit(side, s));
            && FifoStep(t.toMaster, t'.toMaster) && FifoStep(t.toRemote, t'.toRemote)
            && (Stutter(t.toMaster, t'.toMaster) || Stutter(t.toRemote, t'.toRemote))
  {
    hide Inv, FifoStep, Enabled, Apply, ChannelInv;
    ReadyToMove(t, g, side, s);
    ReadyChannels(t, g);
    StepIsFifo(TxChannel(t, side), s);
    StutterIsFifo(RxChannel(t, side), RxChannel(t, side));
  }

  lemma ConsumeRefines(t: State, g: Config, side: Side, s: Step)
    requires Inv(t, g) && Possible(t, Consume(side, s))
    ensures var t' := Next(t, Consume(side, s));
            && FifoStep(t.toMaster, t'.toMaster) && FifoStep(t.toRemote, t'.toRemote)
            && (Stutter(t.toMaster, t'.toMaster) || Stutter(t.toRemote, t'.toRemote))
  {
    hide Inv, FifoStep, Enabled, Apply, ChannelInv;
    ReadyToMove(t, g, side, s);
    ReadyChannels(t, g);
    StepIsFifo(RxChannel(t, side), s);
    StutterIsFifo(TxChannel(t, side), TxChannel(t, side));
  }

  lemma ReadyChannels(t: State, g: Config)
    requires Inv(t, g) && t.phase.Ready?
    ensures ChannelInv(t.toMaster) && ChannelInv(t.toRemote)
  {
    hide ChannelInv, AnyChannel, Early, SeedOk, CoresOk, Wakeups;
  }

  /** Initialisation, kicks and interrupt handling leave both histories alone. */
  lemma OtherRefines(t: State, g: Config, e: Event)
    requires Possible(t, e) && !e.Transmit? && !e.Consume?
    ensures var t' := Next(t, e);
            && FifoStep(t.toMaster, t'.toMaster) && FifoStep(t.toRemote, t'.toRemote)
            && (Stutter(t.toMaster, t'.toMaster) || Stutter(t.toRemote, t'.toRemote))
  {
    HistoriesSame(t, e);
    hide FifoStep, Possible, Next;
    StutterIsFifo(t.toMaster, Next(t, e).toMaster);
    StutterIsFifo(t.toRemote, Next(t, e).toRemote);
  }

  lemma HistoriesSame(t: State, e: Event)
    requires Possible(t, e) && !e.Transmit? && !e.Consume?
    ensures Stutter(t.toMaster, Next(t, e).toMaster) && Stutter(t.toRemote, Next(t, e).toRemote)
  {
    hide Stutter, CanWrite, DoClearRing, SetSeed;
    match e {
      case ClearRing => ClearHistories(t);
      case SeedBuffer(a) => SeedHistories(t, DoSeed(SeedChannel(t), a));
      case SeedWrite(w) => SeedHistories(t, DoFreeWrite(SeedChannel(t), w));
      case _ =>
        CoresOnly(t, e);
        StutterSelf(t.toMaster);
        StutterSelf(t.toRemote);
    }
  }

  lemma ClearHistories(t: State)
    requires t.phase.Clear0? || t.phase.Clear1?
    ensures var t' := DoClearRing(t); Stutter(t.toMaster, t'.toMaster) && Stutter(t.toRemote, t'.toRemote)
  {
    hide ClearedLane;
  }

  lemma SeedHistories(t: State, c: Channel)
    requires c.sent == SeedChannel(t).sent && c.delivered == SeedChannel(t).delivered
    ensures var t' := SetSeed(t, c); Stutter(t.toMaster, t'.toMaster) && Stutter(t.toRemote, t'.toRemote)
  {
  }

  lemma StutterSelf(c: Channel)
    ensures Stutter(c, c)
  {
  }

  lemma CoresOnly(t: State, e: Event)
    requires Possible(t, e) && !e.Transmit? && !e.Consume? && !e.ClearRing? && !e.SeedBuffer? && !e.SeedWrite?
    ensures Next(t, e).toMaster == t.toMaster && Next(t, e).toRemote == t.toRemote
  {
    hide CanEnd, DoTest;
  }

  // ---- doorbells

  /** No lost wakeup: a receive ring that is not empty has its doorbell set, or its owner is inside
      the drain loop, or the sender has published and not kicked yet. */
  lemma NoLostWakeup(t: State, g: Config, side: Side)
    requires Reachable(t, g) && Pending(RxChannel(t, side).data) != []
    requires side.Master? ==> Cleared0(t)
    requires side.Remote? ==> Cleared1(t)
    ensures var k := CoreOf(t, side);
            RxBell(k, side) || Draining(k, side) || CoreOf(t, Other(side)).kickDue
  {
    hide Reachable, ChannelsOk, Early, SeedOk, CoresOk, DrainOk, Pending;
    ReachableInv(t, g);
  }

  /** Both kinds of kick ring: after publishing, the peer's bit for the vring that a side sends on; after
      returning buffers, the peer's bit for the one it receives on. The other bits stay as they are, and
      so does everything else but what the side itself owed. */
  lemma KickRings(t: State, g: Config)
    requires Reachable(t, g)
    ensures Possible(t, Kick(Master)) ==>
              Next(t, Kick(Master)) == t.(remote := t.remote.(bell1 := true), master := t.master.(kickDue := false))
    ensures Possible(t, Kick(Remote)) ==>
              Next(t, Kick(Remote)) == t.(master := t.master.(bell0 := true), remote := t.remote.(kickDue := false))
    ensures Possible(t, NotifyFreed(Master)) ==>
              Next(t, NotifyFreed(Master))
              == t.(remote := t.remote.(bell0 := true), master := t.master.(freed := false))
    ensures Possible(t, NotifyFreed(Remote)) ==>
              Next(t, NotifyFreed(Remote))
              == t.(master := t.master.(bell1 := true), remote := t.remote.(freed := false))
  {
    hide Reachable, ChannelInv, AnyChannel, ConfigOk, Unused, Seeded, Wakeups;
    ReachableInv(t, g);
  }

  /** No handler runs, no bell is set and no kick is due. */
  predicate Quiet(k: Core) {
    !k.bell0 && !k.bell1 && k.isr.Idle? && !k.kickDue
  }

  /** When both cores are quiet, everything sent has arrived. */
  lemma QuietMeansDelivered(t: State, g: Config)
    requires Reachable(t, g) && t.phase.Ready?
    requires Quiet(t.master) && Quiet(t.remote)
    ensures t.toMaster.delivered == t.toMaster.sent
    ensures t.toRemote.delivered == t.toRemote.sent
  {
    hide Reachable, ChannelInv, Pending, Fifo, SeedOk, CoresOk;
    ReachableInv(t, g);
    NothingPending(t.toMaster);
    NothingPending(t.toRemote);
  }

  lemma NothingPending(c: Channel)
    requires ChannelInv(c) && Pending(c.data) == []
    ensures c.delivered == c.sent
  {
    hide LaneInv, DescOk, Conserved, LensOk, Stashed;
    assert c.data.taken == |c.data.log|;
    assert c.sent[..|c.sent|] == c.sent;
  }

  // ---- link up

  /** Until the master has cleared and seeded both vrings and rung vring 0, the remote's link is
      down, it has not looked at its free ring or taken a buffer, and nothing was sent either way. */
  lemma LinkUpSafety(t: State, g: Config)
    requires Reachable(t, g)
    ensures t.remote.link || t.toMaster.free.taken > 0 || !t.toMaster.free.ring.reader.RIdle?
            || |Held(t.toMaster)| > 0 || |Held(t.toRemote)| > 0 ==>
              t.phase.Ready? && |t.toMaster.desc| == g.n && |t.toRemote.desc| == g.n
  {
    hide Reachable, ChannelInv, Held, Wakeups, CoresOk;
    ReachableInv(t, g);
  }

  /** The master's last step of init is on its way to the remote, or has arrived. */
  predicate LinkDue(s: State) {
    var k := s.remote;
    s.phase.Ready? ==> k.link || k.bell0 || (k.isr.Bit0? && k.isr.f0) || k.isr.Serving0?
  }

  lemma LinkDueKeeps(s: State, g: Config, e: Event)
    requires Inv(s, g) && Possible(s, e) && LinkDue(s)
    ensures LinkDue(Next(s, e))
  {
    if e.MasterKick? || e.Kick? || e.NotifyFreed? || e.IsrEnter? || e.IsrTest? || e.TxCallback? || e.DrainEnd?
       || e.RemoteInit? {
      hide Inv, LinkDue, CanEnd, DoKick, DoNotifyFreed, DoIsrEnter, DoIsrTest, DoTxCallback, DoDrainEnd;
      match e {
        case MasterKick => KickArrives(s, g);
        case Kick(side) => KickLinkDue(s, side);
        case NotifyFreed(side) => NotifyLinkDue(s, side);
        case IsrEnter(side) => EnterLinkDue(s, side);
        case IsrTest(side) => TestLinkDue(s, side);
        case TxCallback(side) => TxCallbackLinkDue(s, side);
        case DrainEnd(side) => DrainEndLinkDue(s, side);
        case RemoteInit => RemoteInitLinkDue(s, g);
      }
    } else {
      hide Inv, LinkDue;
      RemoteBells(s, e);
      SameBells(s, Next(s, e));
    }
  }

  lemma KickLinkDue(s: State, side: Side)
    requires LinkDue(s)
    ensures LinkDue(DoKick(s, side))
  {
  }

  lemma NotifyLinkDue(s: State, side: Side)
    requires LinkDue(s)
    ensures LinkDue(DoNotifyFreed(s, side))
  {
  }

  lemma EnterLinkDue(s: State, side: Side)
    requires LinkDue(s) && CoreOf(s, side).isr.Idle?
    ensures LinkDue(DoIsrEnter(s, side))
  {
  }

  lemma TestLinkDue(s: State, side: Side)
    requires LinkDue(s) && (CoreOf(s, side).isr.Bit0? || CoreOf(s, side).isr.Bit1?)
    ensures LinkDue(DoIsrTest(s, side))
  {
  }

  lemma TxCallbackLinkDue(s: State, side: Side)
    requires LinkDue(s) && InTxCallback(CoreOf(s, side), side)
    ensures LinkDue(DoTxCallback(s, side))
  {
  }

  lemma DrainEndLinkDue(s: State, side: Side)
    requires LinkDue(s) && CanEnd(s, side)
    ensures LinkDue(DoDrainEnd(s, side))
  {
    assert Draining(CoreOf(s, side), side);
    hide CanEnd;
  }

  /** A remote that starts late finds the bell still set. */
  lemma RemoteInitLinkDue(s: State, g: Config)
    requires Inv(s, g) && LinkDue(s) && !s.remote.up
    ensures LinkDue(DoRemoteInit(s))
  {
    hide ChannelsOk, Early, SeedOk, Wakeups;
  }

  lemma SameBells(s: State, s': State)
    requires LinkDue(s) && (s'.phase.Ready? ==> s.phase.Ready?)
    requires s'.remote == s.remote.(kickDue := s'.remote.kickDue, freed := s'.remote.freed)
    ensures LinkDue(s')
  {
  }

  lemma RemoteBells(s: State, e: Event)
    requires Possible(s, e)
    requires e.Transmit? || e.Consume? || e.SeedBuffer? || e.SeedWrite? || e.ClearRing? || e.SeedDone? || e.MasterLink?
    ensures var s' := Next(s, e);
            && (s'.phase.Ready? ==> s.phase.Ready?)
            && s'.remote == s.remote.(kickDue := s'.remote.kickDue, freed := s'.remote.freed)
  {
    hide CanSeed, CanWrite, DoSeed, DoFreeWrite, ClearedChannel, Apply, Enabled, ProducerStep, ConsumerStep, DoRing,
         DoTest, CanEnd;
    match e {
      case Transmit(side, t) => TransmitBells(s, side, t);
      case _ =>
    }
  }

  lemma TransmitBells(s: State, side: Side, t: Step)
    requires CanTransmit(s, side, t)
    ensures var s' := DoTransmit(s, side, t);
            && s'.phase == s.phase
            && s'.remote == s.remote.(kickDue := s'.remote.kickDue)
  {
    hide Apply, Enabled, ProducerStep;
  }

  lemma KickArrives(s: State, g: Config)
    requires Inv(s, g) && s.phase.FirstKick?
    ensures LinkDue(DoMasterKick(s))
  {
    hide ChannelInv, AnyChannel, Early, SeedOk, Wakeups;
    assert !s.noNotify0;
    hide Inv;
  }

  lemma {:induction false} RunLinkDue(s: State, g: Config, es: seq<Event>, t: State)
    requires Inv(s, g) && LinkDue(s) && Reaches(s, es, t)
    ensures LinkDue(t)
    decreases |es|
  {
    hide Inv, Possible, Next, LinkDue;
    if es != [] {
      EventKeeps(s, g, es[0]);
      LinkDueKeeps(s, g, es[0]);
      RunLinkDue(Next(s, es[0]), g, es[1..], t);
    }
  }

  /** The link-up is not lost, even if the remote starts after the master has rung: once the master is
      ready the remote's link is up, or the bell is set or being served. */
  lemma LinkUpNotLost(t: State, g: Config)
    requires Reachable(t, g) && t.phase.Ready? && !t.remote.link
    ensures var k := t.remote; k.bell0 || (k.isr.Bit0? && k.isr.f0) || k.isr.Serving0?
  {
    hide Init, Inv, Reaches;
    var s, es :| Init(s, g) && Reaches(s, es, t);
    InitInv(s, g);
    StartsNotReady(s, g);
    RunLinkDue(s, g, es, t);
  }

  lemma StartsNotReady(s: State, g: Config)
    requires Init(s, g)
    ensures LinkDue(s)
  {
    hide AnyChannel, ConfigOk;
  }

  /** While the master seeds, the only thing that can happen besides is the remote's init. */
  lemma SeedingIsExclusive(t: State, g: Config, e: Event)
    requires Reachable(t, g) && Seeding(t) && Possible(t, e)
    ensures e.SeedBuffer? || e.SeedWrite? || e.SeedDone? || e.RemoteInit?
  {
    hide Reachable, CanTransmit, CanConsume, CanSeed, CanWrite, Unused, Wakeups, SeedOk, ChannelsOk;
    ReachableInv(t, g);
    match e {
      case Transmit(side, s) => NothingMovesEarly(t, side, s);
      case Consume(side, s) => NothingMovesEarly(t, side, s);
      case _ =>
    }
  }

  /** When the master sets its link state, each free ring offers all n descriptors, each once, and
      each data ring is empty. */
  lemma PoolIsSeeded(t: State, g: Config, c: Channel)
    requires Reachable(t, g) && (t.phase.SetLink? || t.phase.FirstKick?) && IsChannel(t, c)
    ensures PendingIds(c.free) == AllIds(g.n) && Pending(c.data) == []
  {
    hide Reachable, ChannelInv, Wakeups, CoresOk, AllIds, PendingIds;
    ReachableInv(t, g);
    OnlyFree(c);
  }

  lemma OnlyFree(c: Channel)
    requires ChannelInv(c) && Unused(c) && c.free.ring.writer.WIdle?
    ensures PendingIds(c.free) == AllIds(|c.desc|) && Pending(c.data) == []
  {
    hide LaneInv, LensOk, Stashed, Fifo, DescOk, AllIds;
    assert Held(c) == multiset{};
    assert PendingIds(c.data) == multiset{};
    assert Total(c) == PendingIds(c.free);
  }

  // ---- zero copy

  /** A buffer with the application, on either side, still names its descriptor, and giving it back
      or sending it uses exactly that descriptor. */
  lemma IndexRoundTrip(t: State, g: Config, c: Channel, d: nat)
    requires Reachable(t, g) && IsChannel(t, c)
    ensures d in c.pApp || d in c.qApp ==> HasBuffer(c, d) && BufferOf(c, d).idx == d
    ensures Enabled(c, SendNoCopy(d)) ==> Sends(c, SendNoCopy(d), d)
    ensures Enabled(c, Release(d)) ==> Returns(c, Release(d), d)
  {
    hide Reachable, IsChannel, ChannelInv, Sends, Returns, Enabled;
    ReachableChannel(t, g, c);
    AppNames(c, d);
    if d in c.pApp || d in c.qApp { HeldBuffer(c, d); }
    if Enabled(c, SendNoCopy(d)) { SendsNamed(c, d); }
    if Enabled(c, Release(d)) { ReleasesNamed(c, d); }
  }

  /** The step starts to write the entry of descriptor d, with the length of its buffer, on the data
      ring, or on the free ring. */
  predicate Sends(c: Channel, s: Step, d: nat)
    requires Enabled(c, s)
  {
    Apply(c, s).data.ring.writer.WPlaced?
    && Apply(c, s).data.ring.writer.item == Slot(d, ItemLen(c.data.ring.kind, c.cfg.bufferSize))
  }

  predicate Returns(c: Channel, s: Step, d: nat)
    requires Enabled(c, s)
  {
    Apply(c, s).free.ring.writer.WPlaced?
    && Apply(c, s).free.ring.writer.item == Slot(d, ItemLen(c.free.ring.kind, c.cfg.bufferSize))
  }

  lemma NamedLength(c: Channel, d: nat)
    requires ChannelInv(c) && d in Held(c)
    ensures DescLen(c, d) == c.cfg.bufferSize
  {
    HeldBuffer(c, d);
    hide LanesOk, Conserved, Fifo, LensOk, Stashed;
  }

  lemma SendsNamed(c: Channel, d: nat)
    requires ChannelInv(c) && Enabled(c, SendNoCopy(d))
    ensures Sends(c, SendNoCopy(d), d)
  {
    hide ChannelInv, CanWrite, BufferOf, DescLen;
    AppNames(c, d);
    NamedLength(c, d);
    CanPlaceAny(c.data.ring, Slot(0, 0));
    PlaceFrame(c.data, MakeItem(c.data.ring.kind, d, c.cfg.bufferSize));
  }

  lemma ReleasesNamed(c: Channel, d: nat)
    requires ChannelInv(c) && Enabled(c, Release(d))
    ensures Returns(c, Release(d), d)
  {
    hide ChannelInv, CanWrite, BufferOf, DescLen, Cleared, Write;
    AppNames(c, d);
    NamedLength(c, d);
    CanPlaceAny(c.free.ring, Slot(0, 0));
    var item := MakeItem(c.free.ring.kind, d, c.cfg.bufferSize);
    PlaceFrame(c.free, item);
    ClearedFrame(c.(free := Write(c.free, Place(item)), qApp := c.qApp - multiset{d}), d);
  }

  /** Two descriptors never share a buffer. */
  lemma BuffersAreDistinct(t: State, g: Config, c: Channel, d: nat, e: nat)
    requires Reachable(t, g) && IsChannel(t, c) && d < |c.desc| && e < |c.desc|
    ensures c.desc[d].addr == c.desc[e].addr ==> d == e
  {
    hide Reachable, IsChannel;
    ReachableChannel(t, g, c);
    hide LaneInv, Conserved, Fifo, LensOk, Stashed;
  }

  // ---- the copying send

  /** rpmsg_lite_format_message between allocation and publication: header, then payload. */
  function Formatted(c: Channel, d: nat, src: u32, dst: u32, bytes: seq<u8>, flags: nat): Channel {
    DoCopy(DoHeader(c, d, src, dst, |bytes|, flags), d, bytes)
  }

  /** What `hdr.len`, a 16-bit field, keeps of a payload. */
  function Cut(bytes: seq<u8>): (r: seq<u8>)
    ensures r <= bytes && |r| == |bytes| % U16
  {
    bytes[..|bytes| % U16]
  }

  /** After the header and the payload have been written, the buffer holds the caller's message cut
      to `size` modulo 2^16 bytes; it is the whole message exactly when size is below 2^16. The
      descriptor index in the header is not touched. */
  lemma CopiedMessage(c: Channel, d: nat, src: u32, dst: u32, bytes: seq<u8>, flags: nat)
    requires ChannelInv(c) && d in c.pLocal && |bytes| <= c.cfg.payloadSize
    ensures var b := BufferOf(Formatted(c, d, src, dst, bytes, flags), d);
            && View(b) == Msg(src, dst, Cut(bytes))
            && (View(b) == Msg(src, dst, bytes) <==> |bytes| < U16)
            && b.src == src && b.dst == dst && b.len == |bytes| % U16 && b.flags == flags % U16
            && b.idx == BufferOf(c, d).idx
            && |bytes| <= |b.payload| && b.payload[..|bytes|] == bytes
  {
    hide ChannelInv, HasBuffer, View;
    HeldBuffer(c, d);
    Sizes(c);
    var b0 := BufferOf(c, d);
    var b1 := b0.(src := src, dst := dst, len := |bytes| % U16, flags := flags % U16);
    SetThenGet(c, d, b1);
    var b2 := b1.(payload := bytes + b1.payload[|bytes|..]);
    SetThenGet(DoHeader(c, d, src, dst, |bytes|, flags), d, b2);
    FormattedView(b1, b2, bytes);
  }

  lemma FormattedView(b1: Buffer, b2: Buffer, bytes: seq<u8>)
    requires |bytes| <= |b1.payload| && b1.len == |bytes| % U16
    requires b2 == b1.(payload := bytes + b1.payload[|bytes|..])
    ensures View(b2) == Msg(b1.src, b1.dst, Cut(bytes))
    ensures View(b2) == Msg(b1.src, b1.dst, bytes) <==> |bytes| < U16
  {
    var m := |bytes| % U16;
    assert b2.payload[..m] == bytes[..m];
    if |bytes| < U16 { assert bytes[..m] == bytes; } else { assert |bytes[..m]| != |bytes|; }
  }

  lemma SetThenGet(c: Channel, d: nat, b: Buffer)
    requires HasBuffer(c, d)
    ensures HasBuffer(SetBuffer(c, d, b), d) && BufferOf(SetBuffer(c, d, b), d) == b
  {
  }

  /** An allocation attempt on an empty ring changes nothing; on any other it goes on. */
  lemma FailedAttempt(c: Channel)
    requires ChannelInv(c) && Enabled(c, Alloc(Check))
    ensures Apply(c, Alloc(Check)) == c <==> Pending(c.free) == []
  {
    hide LaneInv, DescOk, Conserved, LensOk, Stashed, Fifo, Pending;
    EqualMeansEmpty(c.free);
  }
}
