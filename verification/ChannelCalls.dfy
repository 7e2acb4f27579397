/** The four queue operations of an instance (`virtqueue_ops`) as runs of channel steps, with the peer
    moving between any two of their accesses. The same text serves both roles: the kind of each ring
    decides which function of `virtqueue.c` runs on it. For the operations of the receiving side the
    caller may say that the peer is quiet, and then knows the whole new state.
 */
module ChannelCalls {
  import opened Lanes
  import opened Channels
  import opened ChannelSteps
  import opened System
  import opened SystemProof
  import opened LinkTheorems
  import opened Calls
  import opened Ownership
  import opened Virtqueues

  // ---- single steps

  /** Where a read is after its next step. */
  predicate ReadOn(l: Lane, m: Lane) {
    match l.ring.reader
    case RIdle => if Pending(l) == [] then m == l else m.ring.reader.RSeen?
    case RSeen => m.ring.reader.RAt?
    case RAt(_) => if l.ring.kind.Used? then m.ring.reader.RHalf? else m.ring.reader.RHas?
    case RHalf(_, _) => m.ring.reader.RHas?
    case RHas(_) => m.ring.reader.RIdle?
  }

  lemma ReadOnLane(l: Lane)
    requires LaneInv(l)
    ensures CanRead(l.ring, NextRead(l.ring)) && ReadOn(l, Read(l, NextRead(l.ring)))
  {
    if l.ring.reader.RIdle? { EqualMeansEmpty(l); }
  }

  lemma DataLane(c: Channel)
    requires ChannelInv(c)
    ensures LaneInv(c.data) && LaneInv(c.free)
  {
  }

  // ---- the peer of a producer's call

  /** The reader has moved, the writer has not. */
  ghost predicate OnlyRead(l: Lane, m: Lane) {
    exists us :: Run(l, us, m) && WriterPart(us) == []
  }

  /** The writer has moved, the reader has not. */
  ghost predicate OnlyWritten(l: Lane, m: Lane) {
    exists us :: Run(l, us, m) && ReaderPart(us) == []
  }

  /** The buffer whose entry is being written, if any, is as it was. */
  predicate WrittenSame(c: Channel, c': Channel) {
    c.data.ring.writer.WIdle?
    || BufferOf(c', c.data.ring.writer.item.id) == BufferOf(c, c.data.ring.writer.item.id)
  }

  /** The consumer has moved, by any number of steps: the producer's part is as it was, and so is what
      has been published; buffers may have been returned. */
  ghost predicate PeerMoved(c: Channel, c': Channel) {
    && ChannelInv(c') && ProducerSame(c, c') && c'.data.log == c.data.log
    && WrittenSame(c, c') && OnlyRead(c.data, c'.data) && OnlyWritten(c.free, c'.free)
  }

  /** Every step of the consumer is such a move, */
  lemma PeerStepMoves(c: Channel, t: Step)
    requires ChannelInv(c) && ConsumerStep(t) && Enabled(c, t)
    ensures PeerMoved(c, Apply(c, t))
  {
    hide ChannelInv, Enabled, Apply, ProducerSame, ConsumerStep, OnlyRead, OnlyWritten, BufferOf;
    StepKeeps(c, t);
    ConsumerSparesProducer(c, t);
    if !c.data.ring.writer.WIdle? { WrittenBufferSpared(c, t); }
    ConsumerLanes(c, t);
  }

  lemma ConsumerLanes(c: Channel, t: Step)
    requires ChannelInv(c) && ConsumerStep(t) && Enabled(c, t)
    ensures var c' := Apply(c, t);
            c'.data.log == c.data.log && OnlyRead(c.data, c'.data) && OnlyWritten(c.free, c'.free)
  {
    hide ChannelInv, CanRead, CanWrite, BufferOf, HasBuffer, OnlyRead, OnlyWritten, DoReceive, DoHold, DoFree,
         DoRelease, DoFreeWrite;
    LaneStays(c.data);
    LaneStays(c.free);
    match t {
      case Receive(r) => ReceiveLanes(c, r);
      case Hold(d) => HoldLanes(c, d);
      case Free(d) => FreeLanes(c, d);
      case Release(d) => ReleaseLanes(c, d);
      case FreeWrite(w) => FreeWriteLanes(c, w);
    }
  }

  lemma LaneStays(l: Lane)
    ensures OnlyRead(l, l) && OnlyWritten(l, l)
  {
    EmptyParts();
    EmptyRun(l);
  }

  lemma LaneRead(l: Lane, r: ReaderStep)
    requires CanRead(l.ring, r)
    ensures OnlyRead(l, Read(l, r)) && Read(l, r).log == l.log
  {
    RunOne(l, R(r));
    hide Run, WriterPart, ReaderPart, CanRead;
  }

  lemma LaneWritten(l: Lane, w: WriterStep)
    requires CanWrite(l.ring, w) && (w.Place? ==> Credit(l, w.item))
    ensures OnlyWritten(l, Write(l, w))
  {
    RunOne(l, W(w));
    hide Run, WriterPart, ReaderPart, CanWrite, Write, Credit;
  }

  lemma ReceiveLanes(c: Channel, r: ReaderStep)
    requires CanRead(c.data.ring, r)
    ensures var c' := DoReceive(c, r);
            c'.data.log == c.data.log && OnlyRead(c.data, c'.data) && c'.free == c.free
  {
    hide CanRead, Read, OnlyRead, TakenLen, View, BufferOf;
    LaneRead(c.data, r);
  }

  lemma HoldLanes(c: Channel, d: nat)
    ensures DoHold(c, d).data == c.data && DoHold(c, d).free == c.free
  {
    hide BufferOf;
  }

  lemma FreeLanes(c: Channel, d: nat)
    requires ChannelInv(c) && Enabled(c, Free(d))
    ensures var c' := Apply(c, Free(d)); c'.data == c.data && OnlyWritten(c.free, c'.free)
  {
    hide ChannelInv, Begun, Returning, DoFree;
    IdleWriter(c.free.ring, Slot(0, 0));
    FreeStarts(c, d);
    BegunWrites(c.free, MakeItem(c.free.ring.kind, d, c.cfg.bufferSize), DoFree(c, d).free);
    DataOfReturn(c, DoFree(c, d), d);
  }

  lemma ReleaseLanes(c: Channel, d: nat)
    requires ChannelInv(c) && Enabled(c, Release(d))
    ensures var c' := Apply(c, Release(d)); c'.data == c.data && OnlyWritten(c.free, c'.free)
  {
    hide ChannelInv, Begun, Returning, DoRelease, BufferOf;
    IdleWriter(c.free.ring, Slot(0, 0));
    ReleaseStarts(c, d);
    BegunWrites(c.free, MakeItem(c.free.ring.kind, d, c.cfg.bufferSize), DoRelease(c, d).free);
    DataOfReturn(c, DoRelease(c, d), d);
  }

  lemma IdleWriter(r: Ring, item: Slot)
    requires CanWrite(r, Place(item))
    ensures r.writer.WIdle?
  {
  }

  lemma BegunWrites(l: Lane, item: Slot, m: Lane)
    requires Begun(l, [W(Place(item))], m, item)
    ensures OnlyWritten(l, m)
  {
    hide Run, WriterPart, ReaderPart;
  }

  lemma DataOfReturn(c: Channel, c': Channel, d: nat)
    requires Returning(c, c', d)
    ensures c'.data == c.data
  {
    hide ChannelInv, BufferOf;
  }

  lemma FreeWriteLanes(c: Channel, w: WriterStep)
    requires CanWrite(c.free.ring, w) && !w.Place?
    ensures var c' := DoFreeWrite(c, w); c'.data == c.data && OnlyWritten(c.free, c'.free)
  {
    hide CanWrite, Write, OnlyWritten;
    LaneWritten(c.free, w);
  }

  lemma ReadTwice(l: Lane, m: Lane, k: Lane)
    requires OnlyRead(l, m) && OnlyRead(m, k)
    ensures OnlyRead(l, k)
  {
    hide Run, WriterPart;
    var us :| Run(l, us, m) && WriterPart(us) == [];
    var vs :| Run(m, vs, k) && WriterPart(vs) == [];
    RunOn(l, us, m, vs, k);
  }

  lemma WrittenTwice(l: Lane, m: Lane, k: Lane)
    requires OnlyWritten(l, m) && OnlyWritten(m, k)
    ensures OnlyWritten(l, k)
  {
    hide Run, ReaderPart;
    var us :| Run(l, us, m) && ReaderPart(us) == [];
    var vs :| Run(m, vs, k) && ReaderPart(vs) == [];
    RunOn(l, us, m, vs, k);
  }

  /** and so is one such move after another. */
  lemma PeerMovedTwice(c: Channel, c1: Channel, c2: Channel)
    requires PeerMoved(c, c1) && PeerMoved(c1, c2)
    ensures PeerMoved(c, c2)
  {
    hide ChannelInv, OnlyRead, OnlyWritten, BufferOf;
    ReadTwice(c.data, c1.data, c2.data);
    WrittenTwice(c.free, c1.free, c2.free);
  }

  lemma PeerStays(c: Channel)
    requires ChannelInv(c)
    ensures PeerMoved(c, c)
  {
    hide ChannelInv, OnlyRead, OnlyWritten, BufferOf;
    LaneStays(c.data);
    LaneStays(c.free);
  }

  /** The consumer runs; callers know of the result no more than the contract says. */
  method PeerMoves(c: Channel) returns (c': Channel)
    requires ChannelInv(c)
    ensures PeerMoved(c, c')
  {
    hide ChannelInv, PeerMoved;
    PeerStays(c);
    c' := c;
  }

  // ---- the peer of a consumer's call

  /** The producer has moved, by any number of steps: the consumer's part is as it was, and messages may
      have been published. */
  ghost predicate SenderMoved(c: Channel, c': Channel) {
    && ChannelInv(c') && ConsumerSame(c, c') && c.sent <= c'.sent
    && OnlyWritten(c.data, c'.data) && OnlyRead(c.free, c'.free)
  }

  lemma SenderStepMoves(c: Channel, t: Step)
    requires ChannelInv(c) && ProducerStep(t) && Enabled(c, t)
    ensures SenderMoved(c, Apply(c, t))
  {
    hide ChannelInv, Enabled, Apply, ConsumerSame, ProducerStep, OnlyRead, OnlyWritten;
    StepKeeps(c, t);
    ProducerSparesConsumer(c, t);
    HistoryShape(c, t);
    ProducerLanes(c, t);
  }

  lemma ProducerLanes(c: Channel, t: Step)
    requires ChannelInv(c) && ProducerStep(t) && Enabled(c, t)
    ensures var c' := Apply(c, t); OnlyWritten(c.data, c'.data) && OnlyRead(c.free, c'.free)
  {
    hide ChannelInv, CanRead, CanWrite, BufferOf, HasBuffer, OnlyRead, OnlyWritten, DoAlloc, DoHandOut, DoHeader,
         DoCopy, DoAppWrite, DoSend, DoSendNoCopy, DoDataWrite;
    LaneStays(c.data);
    LaneStays(c.free);
    match t {
      case Alloc(r) => AllocLanes(c, r);
      case Send(d) => SendLanes(c, d);
      case SendNoCopy(d) => SendNoCopyLanes(c, d);
      case DataWrite(w) => DataWriteLanes(c, w);
      case _ => EditLanes(c, t);
    }
  }

  lemma AllocLanes(c: Channel, r: ReaderStep)
    requires CanRead(c.free.ring, r)
    ensures var c' := DoAlloc(c, r); c'.data == c.data && OnlyRead(c.free, c'.free)
  {
    hide CanRead, Read, OnlyRead, TakenLen;
    LaneRead(c.free, r);
  }

  lemma EditLanes(c: Channel, t: Step)
    requires Enabled(c, t) && (t.HandOut? || t.Header? || t.Copy? || t.AppWrite?)
    ensures Apply(c, t).data == c.data && Apply(c, t).free == c.free
  {
    hide BufferOf, HasBuffer;
  }

  lemma SendLanes(c: Channel, d: nat)
    requires ChannelInv(c) && Enabled(c, Send(d))
    ensures var c' := Apply(c, Send(d)); c'.free == c.free && OnlyWritten(c.data, c'.data)
  {
    hide ChannelInv, Begun, CanWrite, DoSend, Sending, Write, OnlyWritten;
    IdleWriter(c.data.ring, Slot(0, 0));
    SendStarts(c, d);
    SendShape(c, d);
    BegunWrites(c.data, MakeItem(c.data.ring.kind, d, c.cfg.bufferSize), DoSend(c, d).data);
  }

  lemma SendNoCopyLanes(c: Channel, d: nat)
    requires ChannelInv(c) && Enabled(c, SendNoCopy(d))
    ensures var c' := Apply(c, SendNoCopy(d)); c'.free == c.free && OnlyWritten(c.data, c'.data)
  {
    hide ChannelInv, Begun, CanWrite, DoSendNoCopy, Sending, Write, OnlyWritten, BufferOf;
    IdleWriter(c.data.ring, Slot(0, 0));
    SendNoCopyStarts(c, d);
    NoCopyShape(c, d);
    BegunWrites(c.data, MakeItem(c.data.ring.kind, d, c.cfg.bufferSize), DoSendNoCopy(c, d).data);
  }

  lemma DataWriteLanes(c: Channel, w: WriterStep)
    requires CanWrite(c.data.ring, w) && !w.Place?
    ensures var c' := DoDataWrite(c, w); c'.free == c.free && OnlyWritten(c.data, c'.data)
  {
    hide CanWrite, Write, OnlyWritten, BufferOf, View;
    LaneWritten(c.data, w);
  }

  lemma SenderMovedTwice(c: Channel, c1: Channel, c2: Channel)
    requires SenderMoved(c, c1) && SenderMoved(c1, c2)
    ensures SenderMoved(c, c2)
  {
    hide ChannelInv, OnlyRead, OnlyWritten, BufferOf;
    WrittenTwice(c.data, c1.data, c2.data);
    ReadTwice(c.free, c1.free, c2.free);
  }

  lemma SenderStays(c: Channel)
    requires ChannelInv(c)
    ensures SenderMoved(c, c)
  {
    hide ChannelInv, OnlyRead, OnlyWritten, BufferOf;
    LaneStays(c.data);
    LaneStays(c.free);
  }

  /** The producer runs, unless it is quiet. */
  method SenderMoves(c: Channel, ghost quiet: bool) returns (c': Channel)
    requires ChannelInv(c)
    ensures SenderMoved(c, c') && (quiet ==> c' == c)
  {
    hide ChannelInv, SenderMoved;
    SenderStays(c);
    c' := c;
  }

  // ---- receiving

  /** What a receive leaves alone, whatever the producer does meanwhile. */
  ghost predicate RxFrame(c: Channel, c': Channel) {
    && c'.cfg == c.cfg && c'.desc == c.desc && c'.qApp == c.qApp && c.sent <= c'.sent
    && c'.free.ring.writer == c.free.ring.writer && c'.free.log == c.free.log
    && c'.data.ring.kind == c.data.ring.kind && c'.free.ring.kind == c.free.ring.kind
    && BuffersSame(c, c', c.qLocal + c.qApp)
  }

  /** A read in progress on the data ring: nothing has been taken, more may have been published; with a
      quiet producer nothing else has changed. */
  ghost predicate Receiving(c: Channel, c': Channel, quiet: bool) {
    && ChannelInv(c') && RxFrame(c, c') && c'.qLocal == c.qLocal && c'.delivered == c.delivered
    && Pending(c.data) <= Pending(c'.data)
    && (quiet ==> c' == c.(data := c'.data) && Pending(c'.data) == Pending(c.data))
  }

  /** Message d, the oldest pending one, has moved from the data ring to the caller. */
  ghost predicate Took(c: Channel, c': Channel, d: nat) {
    && ChannelInv(c') && RxFrame(c, c') && c'.qLocal == c.qLocal + multiset{d} && c'.data.ring.reader.RIdle?
    && Pending(c.data) != [] && d == Pending(c.data)[0].id && Pending(c.data)[1..] <= Pending(c'.data)
    && c'.delivered == c.delivered + [View(BufferOf(c, d))] && View(BufferOf(c', d)) == View(BufferOf(c, d))
  }

  /** The same, and nothing else has changed. */
  ghost predicate Received(c: Channel, c': Channel, d: nat) {
    && ChannelInv(c') && Pending(c.data) != [] && d == Pending(c.data)[0].id
    && Pending(c'.data) == Pending(c.data)[1..]
    && c'.data.ring.reader.RIdle? && c'.data.ring.kind == c.data.ring.kind
    && c'.qLocal == c.qLocal + multiset{d}
    && c'.delivered == c.delivered + [View(BufferOf(c, d))]
    && c' == c.(data := c'.data, qLocal := c'.qLocal, qLen := c'.qLen, delivered := c'.delivered)
  }

  /** One step of the call. */
  function Rx(c: Channel): Channel
    requires CanRead(c.data.ring, NextRead(c.data.ring))
  {
    DoReceive(c, NextRead(c.data.ring))
  }

  lemma RxStep(c: Channel, c1: Channel, quiet: bool)
    requires Receiving(c, c1, quiet) && !c1.data.ring.reader.RHas?
    ensures CanRead(c1.data.ring, NextRead(c1.data.ring))
    ensures Receiving(c, Rx(c1), quiet) && ReadOn(c1.data, Rx(c1).data)
    ensures Rx(c1).data == c1.data ==> Rx(c1) == c1
  {
    hide ChannelInv, LaneInv, CanRead, Read, Pending, ReadOn, BuffersSame;
    var r := NextRead(c1.data.ring);
    DataLane(c1);
    ReadOnLane(c1.data);
    ReceiveKeeps(c1, r);
    PendingAfterRead(c1.data, r);
    ReadFrame(c1.data, r);
    StillSame(c, c1, Rx(c1), c.qLocal + c.qApp);
  }

  /** The oldest pending message is the next one to be delivered. */
  lemma HeadMessage(c: Channel)
    requires ChannelInv(c) && Pending(c.data) != []
    ensures |c.delivered| < |c.sent| && View(BufferOf(c, Pending(c.data)[0].id)) == c.sent[|c.delivered|]
  {
    hide LaneInv, DescOk, Conserved, LensOk, Stashed, View, BufferOf;
  }

  lemma RxTake(c: Channel, c1: Channel, quiet: bool)
    requires ChannelInv(c) && Receiving(c, c1, quiet) && c1.data.ring.reader.RHas? && Pending(c.data) != []
    ensures CanRead(c1.data.ring, NextRead(c1.data.ring))
    ensures Took(c, Rx(c1), c1.data.ring.reader.item.id)
    ensures quiet ==> Received(c, Rx(c1), c1.data.ring.reader.item.id)
  {
    hide ChannelInv, LaneInv, CanRead, Read, Pending, View, BufferOf, BuffersSame;
    DataLane(c1);
    ReadOnLane(c1.data);
    ReceiveKeeps(c1, Take);
    PendingAfterRead(c1.data, Take);
    ReadFrame(c1.data, Take);
    PrefixHead(Pending(c.data), Pending(c1.data));
    HeadMessage(c);
    HeadMessage(c1);
    StillSame(c, c1, Rx(c1), c.qLocal + c.qApp);
    SameMessage(c1, Rx(c1), c1.data.ring.reader.item.id);
  }

  lemma SameMessage(c: Channel, c': Channel, d: nat)
    requires c'.mem == c.mem && c'.desc == c.desc
    ensures BufferOf(c', d) == BufferOf(c, d)
  {
  }

  /** The producer's moves leave a receive where it is. */
  lemma RxPeer(c: Channel, c1: Channel, c2: Channel, quiet: bool)
    requires Receiving(c, c1, quiet) && SenderMoved(c1, c2) && (quiet ==> c2 == c1)
    ensures Receiving(c, c2, quiet) && c2.data.ring.reader == c1.data.ring.reader
    ensures c2.data.ring.kind == c1.data.ring.kind && OnlyWritten(c1.data, c2.data)
  {
    hide ChannelInv, OnlyRead, OnlyWritten, BufferOf, Pending;
    PendingGrows(c1.data, c2.data);
    Prefixes(Pending(c.data), Pending(c1.data), Pending(c2.data));
    Prefixes(c.sent, c1.sent, c2.sent);
    LogKept(c1.free, c2.free);
  }

  lemma LogKept(l: Lane, m: Lane)
    requires OnlyRead(l, m)
    ensures m.log == l.log && m.ring.writer == l.ring.writer
  {
    var us :| Run(l, us, m) && WriterPart(us) == [];
    ReaderRuns(l, us, m);
  }

  /** A step of the call is a move of the data lane. */
  lemma RxMove(l: Lane, vs: seq<Move>, c: Channel)
    requires Run(l, vs, c.data) && CanRead(c.data.ring, NextRead(c.data.ring))
    ensures var v := R(NextRead(c.data.ring));
            && Run(l, vs + [v], Rx(c).data)
            && ReaderPart(vs + [v]) == ReaderPart(vs) + [v.r] && WriterPart(vs + [v]) == WriterPart(vs)
  {
    hide Run, ReaderPart, WriterPart, CanRead, Read;
    RunStep(l, vs, c.data, R(NextRead(c.data.ring)));
  }

  lemma ReceivingParts(c: Channel, c1: Channel, quiet: bool)
    requires Receiving(c, c1, quiet)
    ensures c1.data.ring.kind == c.data.ring.kind && ChannelInv(c1)
  {
    hide ChannelInv, Pending, BuffersSame;
  }

  lemma ReceivingStart(c: Channel, quiet: bool)
    requires ChannelInv(c)
    ensures Receiving(c, c, quiet)
  {
    hide ChannelInv, BufferOf;
  }

  /** The producer moves, and the next access of the read is made. */
  method RxNext(ghost c: Channel, c1: Channel, ghost vs: seq<Move>, ghost quiet: bool)
    returns (c2: Channel, ghost us: seq<Move>)
    requires Receiving(c, c1, quiet) && Run(c.data, vs, c1.data) && (quiet ==> WriterPart(vs) == [])
    requires !c1.data.ring.reader.RIdle? && !c1.data.ring.reader.RHas?
    ensures Receiving(c, c2, quiet) && Run(c.data, us, c2.data) && ReadOn(c1.data, c2.data)
    ensures ReaderPart(us) == ReaderPart(vs) + [NextRead(c1.data.ring)] && (quiet ==> WriterPart(us) == [])
  {
    hide ChannelInv, Rx, Receiving, CanRead, Run, ReaderPart, WriterPart, SenderMoved, OnlyWritten, Pending;
    ReceivingParts(c, c1, quiet);
    c2 := SenderMoves(c1, quiet);
    RxPeer(c, c1, c2, quiet);
    us := WritesBetween(c.data, vs, c1.data, c2.data);
    RxStep(c, c2, quiet);
    RxMove(c.data, us, c2);
    us := us + [R(NextRead(c2.data.ring))];
    c2 := Rx(c2);
  }

  /** `vq_rx` */
  method VqRx(c: Channel, ghost quiet: bool) returns (c': Channel, msg: Option<nat>)
    requires ChannelInv(c) && c.data.ring.reader.RIdle?
    ensures msg.None? <==> Pending(c.data) == []
    ensures msg.None? ==> c' == c
    ensures msg.Some? ==> Took(c, c', msg.value) && IsReadAmid(c.data, c'.data)
    ensures msg.Some? && quiet ==> Received(c, c', msg.value) && IsRead(c.data, c'.data)
  {
    hide ChannelInv, Rx, Received, Took, Receiving, CanRead, Pending, Run, ReaderPart, WriterPart, IsRead, IsReadAmid,
         SenderMoved, OnlyWritten;
    ReceivingStart(c, quiet);
    EmptyParts();
    EmptyRun(c.data);
    ghost var vs: seq<Move> := [];
    RxStep(c, c, quiet);
    RxMove(c.data, vs, c);
    c', vs := Rx(c), vs + [R(Check)];
    if c'.data.ring.reader.RIdle? {
      return c', None;
    }
    c', vs := RxNext(c, c', vs, quiet);
    ReceivingParts(c, c', quiet);
    c', vs := RxNext(c, c', vs, quiet);
    ReceivingParts(c, c', quiet);
    if c'.data.ring.kind.Used? {
      c', vs := RxNext(c, c', vs, quiet);
    }
    ReceivingParts(c, c', quiet);
    ghost var was := c';
    c' := SenderMoves(c', quiet);
    RxPeer(c, was, c', quiet);
    vs := WritesBetween(c.data, vs, was.data, c'.data);
    RxTake(c, c', quiet);
    RxMove(c.data, vs, c');
    msg := Some(c'.data.ring.reader.item.id);
    c', vs := Rx(c'), vs + [R(Take)];
    ReadAmidDone(c.data, vs, c'.data);
  }

  // ---- allocating a transmit buffer

  /** What an allocation leaves alone, whatever the peer does meanwhile. */
  ghost predicate AllocFrame(c: Channel, c': Channel) {
    && c'.cfg == c.cfg && c'.desc == c.desc && c'.pApp == c.pApp && c'.sent == c.sent
    && c'.data.log == c.data.log && c'.data.ring.writer == c.data.ring.writer
    && c'.data.ring.kind == c.data.ring.kind && c'.free.ring.kind == c.free.ring.kind
    && BuffersSame(c, c', c.pLocal + c.pApp)
  }

  /** A read in progress on the free ring: nothing has been taken, more may have been returned. */
  ghost predicate Allocating(c: Channel, c': Channel) {
    && ChannelInv(c') && AllocFrame(c, c') && c'.pLocal == c.pLocal && Pending(c.free) <= Pending(c'.free)
  }

  /** Descriptor d, the oldest on the free ring, has moved to the caller. */
  ghost predicate Allocated(c: Channel, c': Channel, d: nat) {
    && ChannelInv(c') && AllocFrame(c, c') && c'.pLocal == c.pLocal + multiset{d}
    && Pending(c.free) != [] && d == Pending(c.free)[0].id && Pending(c.free)[1..] <= Pending(c'.free)
    && c'.free.ring.reader.RIdle?
  }

  function Tx(c: Channel): Channel
    requires CanRead(c.free.ring, NextRead(c.free.ring))
  {
    DoAlloc(c, NextRead(c.free.ring))
  }

  lemma TxStep(c: Channel, c1: Channel)
    requires Allocating(c, c1) && !c1.free.ring.reader.RHas?
    ensures CanRead(c1.free.ring, NextRead(c1.free.ring))
    ensures Allocating(c, Tx(c1)) && ReadOn(c1.free, Tx(c1).free)
    ensures Tx(c1).free == c1.free ==> Tx(c1) == c1
  {
    hide ChannelInv, LaneInv, CanRead, Read, Pending, ReadOn, BuffersSame;
    var r := NextRead(c1.free.ring);
    DataLane(c1);
    ReadOnLane(c1.free);
    AllocKeeps(c1, r);
    PendingAfterRead(c1.free, r);
    ReadFrame(c1.free, r);
    StillSame(c, c1, Tx(c1), c.pLocal + c.pApp);
  }

  lemma StillSame(c: Channel, c1: Channel, c2: Channel, ds: multiset<nat>)
    requires BuffersSame(c, c1, ds) && c2.mem == c1.mem && c2.desc == c1.desc
    ensures BuffersSame(c, c2, ds)
  {
  }

  lemma TxTake(c: Channel, c1: Channel)
    requires Allocating(c, c1) && c1.free.ring.reader.RHas? && Pending(c.free) != []
    ensures CanRead(c1.free.ring, NextRead(c1.free.ring))
    ensures Allocated(c, Tx(c1), c1.free.ring.reader.item.id)
  {
    hide ChannelInv, LaneInv, CanRead, Read, Pending, BuffersSame;
    DataLane(c1);
    ReadOnLane(c1.free);
    AllocKeeps(c1, Take);
    PendingAfterRead(c1.free, Take);
    ReadFrame(c1.free, Take);
    StillSame(c, c1, Tx(c1), c.pLocal + c.pApp);
    PrefixHead(Pending(c.free), Pending(c1.free));
    TakenShape(c1);
  }

  lemma TakenShape(c: Channel)
    requires c.free.ring.reader.RHas? && CanRead(c.free.ring, Take)
    ensures Tx(c).pLocal == c.pLocal + multiset{c.free.ring.reader.item.id} && Tx(c).free.ring.reader.RIdle?
  {
    hide TakenLen;
  }

  lemma PrefixHead(s: seq<Slot>, t: seq<Slot>)
    requires s != [] && s <= t
    ensures t != [] && t[0] == s[0] && s[1..] <= t[1..]
  {
  }

  /** The consumer's moves leave an allocation where it is. */
  lemma TxPeer(c: Channel, c1: Channel, c2: Channel)
    requires Allocating(c, c1) && PeerMoved(c1, c2)
    ensures Allocating(c, c2) && c2.free.ring.reader == c1.free.ring.reader
    ensures c2.free.ring.kind == c1.free.ring.kind && OnlyWritten(c1.free, c2.free)
  {
    hide ChannelInv, OnlyRead, OnlyWritten, WrittenSame, BufferOf, Pending;
    PendingGrows(c1.free, c2.free);
    Prefixes(Pending(c.free), Pending(c1.free), Pending(c2.free));
  }

  lemma PendingGrows(l: Lane, m: Lane)
    requires OnlyWritten(l, m)
    ensures Pending(l) <= Pending(m) && m.ring.reader == l.ring.reader && m.ring.kind == l.ring.kind
  {
    var us :| Run(l, us, m) && ReaderPart(us) == [];
    WriterRuns(l, us, m);
    hide Run, ReaderPart;
    if l.taken <= |l.log| { assert l.log[l.taken..] <= m.log[l.taken..]; }
  }

  lemma Prefixes<T>(s: seq<T>, t: seq<T>, u: seq<T>)
    requires s <= t <= u
    ensures s <= u
  {
  }

  /** A step of the call is a move of the free lane, */
  lemma TxMove(l: Lane, vs: seq<Move>, c: Channel)
    requires Run(l, vs, c.free) && CanRead(c.free.ring, NextRead(c.free.ring))
    ensures var v := R(NextRead(c.free.ring));
            Run(l, vs + [v], Tx(c).free) && ReaderPart(vs + [v]) == ReaderPart(vs) + [v.r]
  {
    hide Run, ReaderPart, WriterPart, CanRead, Read;
    RunStep(l, vs, c.free, R(NextRead(c.free.ring)));
  }

  /** and the peer's writes go between. */
  lemma WritesBetween(l: Lane, vs: seq<Move>, m: Lane, k: Lane) returns (us: seq<Move>)
    requires Run(l, vs, m) && OnlyWritten(m, k)
    ensures Run(l, us, k) && ReaderPart(us) == ReaderPart(vs)
    ensures m == k && WriterPart(vs) == [] ==> WriterPart(us) == []
  {
    hide Run, ReaderPart, WriterPart;
    if m == k {
      us := vs;
    } else {
      var ws :| Run(m, ws, k) && ReaderPart(ws) == [];
      RunOn(l, vs, m, ws, k);
      us := vs + ws;
    }
  }

  lemma AllocatingParts(c: Channel, c1: Channel)
    requires Allocating(c, c1)
    ensures c1.free.ring.kind == c.free.ring.kind && ChannelInv(c1)
  {
    hide ChannelInv, Pending, BuffersSame;
  }

  lemma AllocatingStart(c: Channel)
    requires ChannelInv(c)
    ensures Allocating(c, c)
  {
    hide ChannelInv, BufferOf;
  }

  lemma ReadAmidDone(l: Lane, vs: seq<Move>, m: Lane)
    requires Run(l, vs, m)
    requires ReaderPart(vs) == if l.ring.kind.Used? then [] + [Check] + [Locate] + [LoadId] + [LoadLen] + [Take]
                               else [] + [Check] + [Locate] + [LoadId] + [Take]
    ensures IsReadAmid(l, m)
    ensures WriterPart(vs) == [] ==> IsRead(l, m)
  {
    hide Run, ReaderPart, WriterPart;
  }

  /** The peer moves, and the next access of the read is made. */
  method TxNext(ghost c: Channel, c1: Channel, ghost vs: seq<Move>) returns (c2: Channel, ghost us: seq<Move>)
    requires Allocating(c, c1) && Run(c.free, vs, c1.free)
    requires !c1.free.ring.reader.RIdle? && !c1.free.ring.reader.RHas?
    ensures Allocating(c, c2) && Run(c.free, us, c2.free) && ReadOn(c1.free, c2.free)
    ensures ReaderPart(us) == ReaderPart(vs) + [NextRead(c1.free.ring)]
  {
    hide ChannelInv, Tx, Allocating, CanRead, Run, ReaderPart, WriterPart, PeerMoved, OnlyWritten, Pending;
    AllocatingParts(c, c1);
    c2 := PeerMoves(c1);
    TxPeer(c, c1, c2);
    us := WritesBetween(c.free, vs, c1.free, c2.free);
    TxStep(c, c2);
    TxMove(c.free, us, c2);
    us := us + [R(NextRead(c2.free.ring))];
    c2 := Tx(c2);
  }

  /** `vq_tx_alloc` */
  method VqTxAlloc(c: Channel) returns (c': Channel, buffer: Option<nat>)
    requires ChannelInv(c) && c.free.ring.reader.RIdle?
    ensures buffer.None? <==> Pending(c.free) == []
    ensures buffer.None? ==> c' == c
    ensures buffer.Some? ==> Allocated(c, c', buffer.value) && IsReadAmid(c.free, c'.free)
  {
    hide ChannelInv, Tx, Allocated, Allocating, CanRead, Pending, Run, ReaderPart, WriterPart, IsRead, IsReadAmid,
         PeerMoved, OnlyWritten;
    AllocatingStart(c);
    EmptyParts();
    EmptyRun(c.free);
    ghost var vs: seq<Move> := [];
    TxStep(c, c);
    TxMove(c.free, vs, c);
    c', vs := Tx(c), vs + [R(Check)];
    if c'.free.ring.reader.RIdle? {
      return c', None;
    }
    c', vs := TxNext(c, c', vs);
    AllocatingParts(c, c');
    c', vs := TxNext(c, c', vs);
    AllocatingParts(c, c');
    if c'.free.ring.kind.Used? {
      c', vs := TxNext(c, c', vs);
    }
    AllocatingParts(c, c');
    ghost var was := c';
    c' := PeerMoves(c');
    TxPeer(c, was, c');
    vs := WritesBetween(c.free, vs, was.free, c'.free);
    TxTake(c, c');
    TxMove(c.free, vs, c');
    buffer := Some(c'.free.ring.reader.item.id);
    c', vs := Tx(c'), vs + [R(Take)];
    ReadAmidDone(c.free, vs, c'.free);
  }

  // ---- giving a buffer back

  /** Where a write is after its next step. */
  predicate WriteOn(l: Lane, m: Lane) {
    match l.ring.writer
    case WIdle => true
    case WPlaced(item, _) =>
      m.log == l.log && (if l.ring.kind.Used? then m.ring.writer.WHalf? else m.ring.writer.WFull?)
      && m.ring.writer.item == item
    case WHalf(item, _) => m.log == l.log && m.ring.writer.WFull? && m.ring.writer.item == item
    case WFull(item, _) => m.log == l.log + [item] && m.ring.writer.WIdle?
  }

  lemma WriteOnLane(l: Lane)
    requires LaneInv(l) && !l.ring.writer.WIdle?
    ensures CanWrite(l.ring, NextWrite(l.ring)) && !NextWrite(l.ring).Place?
    ensures WriteOn(l, Write(l, NextWrite(l.ring)))
  {
  }

  /** Everything but the free lane, the consumer's holdings and the buffer of d. */
  ghost predicate ReturnFrame(c: Channel, c': Channel, d: nat) {
    && c' == c.(free := c'.free, qLocal := c'.qLocal, qApp := c'.qApp, mem := c'.mem)
    && c'.free.ring.kind == c.free.ring.kind && c'.free.taken == c.free.taken
    && c'.free.ring.reader == c.free.ring.reader
    && forall e: nat | e != d :: BufferOf(c', e) == BufferOf(c, e)
  }

  /** Descriptor d has left the caller and is being written to the free ring. */
  ghost predicate Returning(c: Channel, c': Channel, d: nat) {
    && ChannelInv(c') && ReturnFrame(c, c', d)
    && c'.free.log == c.free.log && !c'.free.ring.writer.WIdle?
    && c'.free.ring.writer.item == MakeItem(c.free.ring.kind, d, c.cfg.bufferSize)
  }

  /** Descriptor d has been published on the free ring, with the length of its buffer. */
  ghost predicate Returned(c: Channel, c': Channel, d: nat) {
    && ChannelInv(c') && ReturnFrame(c, c', d)
    && c'.free.log == c.free.log + [MakeItem(c.free.ring.kind, d, c.cfg.bufferSize)]
    && c'.free.ring.writer.WIdle?
  }

  /** The write of an entry has begun with its placement, and so far consists of nothing else. */
  ghost predicate Begun(l: Lane, vs: seq<Move>, m: Lane, item: Slot) {
    Run(l, vs, m) && WriterPart(vs) == [Place(item)] && ReaderPart(vs) == []
  }

  lemma PlacementBegins(l: Lane, item: Slot)
    requires CanWrite(l.ring, Place(item)) && Credit(l, item)
    ensures Begun(l, [W(Place(item))], Write(l, Place(item)), item)
  {
    hide Run, WriterPart, ReaderPart, CanWrite, Write, Credit;
    RunOne(l, W(Place(item)));
  }

  /** A core that holds a descriptor has the credit to write its entry to either ring. */
  lemma HolderCredit(c: Channel, d: nat)
    requires ChannelInv(c) && d in Held(c)
    ensures Credit(c.data, MakeItem(c.data.ring.kind, d, c.cfg.bufferSize))
    ensures Credit(c.free, MakeItem(c.free.ring.kind, d, c.cfg.bufferSize))
  {
    hide LaneInv, LensOk, Stashed, Fifo, Conserved, DescOk;
    HolderHasCredit(c, d);
  }

  lemma FreeStarts(c: Channel, d: nat)
    requires ChannelInv(c) && d in c.qLocal && c.free.ring.writer.WIdle?
    ensures CanWrite(c.free.ring, Place(Slot(0, 0)))
    ensures var c' := DoFree(c, d);
            Returning(c, c', d) && c'.free.ring.writer.WPlaced?
            && c'.qLocal == c.qLocal - multiset{d} && c'.qApp == c.qApp
    ensures var item := MakeItem(c.free.ring.kind, d, c.cfg.bufferSize);
            Begun(c.free, [W(Place(item))], DoFree(c, d).free, item)
  {
    DataLane(c);
    HolderCredit(c, d);
    CanPlace(c.free);
    DescPart(c);
    QLength(c, d);
    hide ChannelInv, LaneInv, Begun, Credit, DescOk, CanWrite, Write, BufferOf, Cleared, Lookup;
    FreeKeeps(c, d);
    forall e: nat | e != d ensures BufferOf(DoFree(c, d), e) == BufferOf(c, e) { FreeOnly(c, d, e); }
    var item := MakeItem(c.free.ring.kind, d, c.cfg.bufferSize);
    PlaceFrame(c.free, item);
    PlaceLeavesReader(c.free, item);
    ClearedFrame(c.(free := Write(c.free, Place(item)), qLocal := c.qLocal - multiset{d}), d);
    PlacementBegins(c.free, item);
  }

  lemma ReleaseStarts(c: Channel, d: nat)
    requires ChannelInv(c) && d in c.qApp && c.free.ring.writer.WIdle?
    ensures CanWrite(c.free.ring, Place(Slot(0, 0)))
    ensures var c' := DoRelease(c, d);
            Returning(c, c', d) && c'.free.ring.writer.WPlaced?
            && c'.qApp == c.qApp - multiset{d} && c'.qLocal == c.qLocal
    ensures var item := MakeItem(c.free.ring.kind, d, c.cfg.bufferSize);
            Begun(c.free, [W(Place(item))], DoRelease(c, d).free, item)
  {
    DataLane(c);
    HolderCredit(c, d);
    CanPlace(c.free);
    DescPart(c);
    AppNames(c, d);
    AppLength(c, d);
    hide ChannelInv, LaneInv, Begun, Credit, DescOk, CanWrite, Write, BufferOf, Cleared, DescLen;
    ReleaseKeeps(c, d);
    forall e: nat | e != d ensures BufferOf(DoRelease(c, d), e) == BufferOf(c, e) { ReleaseOnly(c, d, e); }
    var item := MakeItem(c.free.ring.kind, d, c.cfg.bufferSize);
    PlaceFrame(c.free, item);
    PlaceLeavesReader(c.free, item);
    ClearedFrame(c.(free := Write(c.free, Place(item)), qApp := c.qApp - multiset{d}), d);
    PlacementBegins(c.free, item);
  }

  lemma AppLength(c: Channel, d: nat)
    requires ChannelInv(c) && (d in c.pApp || d in c.qApp)
    ensures DescLen(c, d) == c.cfg.bufferSize
  {
    NamedLength(c, d);
  }

  /** What returning d leaves alone, whatever the producer does meanwhile. */
  ghost predicate GiveFrame(c: Channel, c': Channel, d: nat) {
    && c'.cfg == c.cfg && c'.desc == c.desc && c'.qLen == c.qLen && c'.delivered == c.delivered && c.sent <= c'.sent
    && c'.data.ring.reader == c.data.ring.reader
    && c'.data.ring.kind == c.data.ring.kind && c'.free.ring.kind == c.free.ring.kind
    && BuffersSame(c, c', c.qLocal + c.qApp - multiset{d})
  }

  /** Descriptor d has left the caller and is being written; with a quiet producer nothing else changes. */
  ghost predicate Giving(c: Channel, c': Channel, d: nat, quiet: bool) {
    && ChannelInv(c') && GiveFrame(c, c', d)
    && c'.qLocal + c'.qApp == c.qLocal + c.qApp - multiset{d}
    && c'.free.log == c.free.log && !c'.free.ring.writer.WIdle?
    && c'.free.ring.writer.item == MakeItem(c.free.ring.kind, d, c.cfg.bufferSize)
    && (quiet ==> ReturnFrame(c, c', d))
  }

  /** Descriptor d has been published on the free ring, with the length of its buffer. */
  ghost predicate Gave(c: Channel, c': Channel, d: nat) {
    && ChannelInv(c') && GiveFrame(c, c', d)
    && c'.free.log == c.free.log + [MakeItem(c.free.ring.kind, d, c.cfg.bufferSize)]
    && c'.free.ring.writer.WIdle?
  }

  lemma GivingFrom(c: Channel, c': Channel, d: nat, quiet: bool)
    requires Returning(c, c', d) && c'.qLocal + c'.qApp == c.qLocal + c.qApp - multiset{d}
    requires (c.qLocal + c.qApp)[d] <= 1
    ensures Giving(c, c', d, quiet)
  {
    hide ChannelInv, BufferOf;
  }

  function Put(c: Channel): Channel
    requires CanWrite(c.free.ring, NextWrite(c.free.ring))
  {
    DoFreeWrite(c, NextWrite(c.free.ring))
  }

  lemma PutStep(c: Channel, c1: Channel, d: nat, quiet: bool)
    requires Giving(c, c1, d, quiet)
    ensures CanWrite(c1.free.ring, NextWrite(c1.free.ring))
    ensures Put(c1).qLocal == c1.qLocal && Put(c1).qApp == c1.qApp && Put(c1).free.ring.kind == c1.free.ring.kind
    ensures WriteOn(c1.free, Put(c1).free)
    ensures if Put(c1).free.ring.writer.WIdle? then Gave(c, Put(c1), d) && (quiet ==> Returned(c, Put(c1), d))
            else Giving(c, Put(c1), d, quiet)
  {
    hide ChannelInv, LaneInv, CanWrite, Write, ReturnFrame, BuffersSame;
    DataLane(c1);
    WriteOnLane(c1.free);
    var w := NextWrite(c1.free.ring);
    FreeWriteKeeps(c1, w);
    WriteFrame(c1.free, w);
    StillSame(c, c1, Put(c1), c.qLocal + c.qApp - multiset{d});
    if quiet { PutFrame(c, c1, d); }
  }

  lemma PutFrame(c: Channel, c1: Channel, d: nat)
    requires ReturnFrame(c, c1, d) && CanWrite(c1.free.ring, NextWrite(c1.free.ring))
    ensures ReturnFrame(c, Put(c1), d)
  {
    hide CanWrite, Write, BufferOf;
    WriteFrame(c1.free, NextWrite(c1.free.ring));
    forall e: nat | e != d ensures BufferOf(Put(c1), e) == BufferOf(c, e) { SameMemory(c1, Put(c1), e); }
  }

  /** The producer's moves leave a return where it is. */
  lemma PutPeer(c: Channel, c1: Channel, c2: Channel, d: nat, quiet: bool)
    requires Giving(c, c1, d, quiet) && SenderMoved(c1, c2) && (quiet ==> c2 == c1)
    ensures Giving(c, c2, d, quiet) && c2.free.ring.writer == c1.free.ring.writer
    ensures c2.qLocal == c1.qLocal && c2.qApp == c1.qApp && c2.free.ring.kind == c1.free.ring.kind
    ensures OnlyRead(c1.free, c2.free) && c2.free.log == c1.free.log
  {
    hide ChannelInv, OnlyRead, OnlyWritten, BufferOf, ReturnFrame;
    Prefixes(c.sent, c1.sent, c2.sent);
    LogKept(c1.free, c2.free);
  }

  lemma PutMove(l: Lane, vs: seq<Move>, c: Channel)
    requires Run(l, vs, c.free) && CanWrite(c.free.ring, NextWrite(c.free.ring)) && !NextWrite(c.free.ring).Place?
    ensures var v := W(NextWrite(c.free.ring));
            && Run(l, vs + [v], Put(c).free)
            && WriterPart(vs + [v]) == WriterPart(vs) + [v.w] && ReaderPart(vs + [v]) == ReaderPart(vs)
  {
    hide Run, ReaderPart, WriterPart, CanWrite, Write;
    RunStep(l, vs, c.free, W(NextWrite(c.free.ring)));
  }

  lemma ReadsBetween(l: Lane, vs: seq<Move>, m: Lane, k: Lane) returns (us: seq<Move>)
    requires Run(l, vs, m) && OnlyRead(m, k)
    ensures Run(l, us, k) && WriterPart(us) == WriterPart(vs)
    ensures m == k && ReaderPart(vs) == [] ==> ReaderPart(us) == []
  {
    hide Run, ReaderPart, WriterPart;
    if m == k {
      us := vs;
    } else {
      var ws :| Run(m, ws, k) && WriterPart(ws) == [];
      RunOn(l, vs, m, ws, k);
      us := vs + ws;
    }
  }

  /** The producer moves, and the next access of the write is made. */
  method PutNext(ghost c: Channel, c1: Channel, ghost d: nat, ghost vs: seq<Move>, ghost quiet: bool)
    returns (c2: Channel, ghost us: seq<Move>)
    requires Giving(c, c1, d, quiet) && Run(c.free, vs, c1.free) && (quiet ==> ReaderPart(vs) == [])
    requires !c1.free.ring.writer.WIdle?
    ensures Run(c.free, us, c2.free) && WriteOn(c1.free, c2.free) && c2.free.ring.kind == c1.free.ring.kind
    ensures c2.qLocal == c1.qLocal && c2.qApp == c1.qApp
    ensures WriterPart(us) == WriterPart(vs) + [NextWrite(c1.free.ring)] && (quiet ==> ReaderPart(us) == [])
    ensures if c2.free.ring.writer.WIdle? then Gave(c, c2, d) && (quiet ==> Returned(c, c2, d))
            else Giving(c, c2, d, quiet)
  {
    hide ChannelInv, Put, Giving, Gave, Returned, CanWrite, Run, ReaderPart, WriterPart, SenderMoved, OnlyRead;
    GivingParts(c, c1, d, quiet);
    c2 := SenderMoves(c1, quiet);
    PutPeer(c, c1, c2, d, quiet);
    us := ReadsBetween(c.free, vs, c1.free, c2.free);
    PutStep(c, c2, d, quiet);
    SameNext(c1.free, c2.free);
    PutMove(c.free, us, c2);
    us := us + [W(NextWrite(c2.free.ring))];
    c2 := Put(c2);
  }

  /** The rest of the call, once the entry has been placed. */
  method FinishReturn(ghost c: Channel, c1: Channel, ghost d: nat, ghost vs0: seq<Move>, ghost quiet: bool)
    returns (c': Channel)
    requires Giving(c, c1, d, quiet) && c1.free.ring.writer.WPlaced?
    requires Begun(c.free, vs0, c1.free, MakeItem(c.free.ring.kind, d, c.cfg.bufferSize))
    ensures Gave(c, c', d) && c'.qLocal == c1.qLocal && c'.qApp == c1.qApp
    ensures IsWriteAmid(c.free, c'.free, MakeItem(c.free.ring.kind, d, c.cfg.bufferSize))
    ensures quiet ==> Returned(c, c', d) && IsWrite(c.free, c'.free, MakeItem(c.free.ring.kind, d, c.cfg.bufferSize))
  {
    hide ChannelInv, Gave, Returned, Giving, Run, ReaderPart, WriterPart, IsWrite, IsWriteAmid;
    ghost var vs := vs0;
    GivingParts(c, c1, d, quiet);
    c', vs := PutNext(c, c1, d, vs, quiet);
    if c'.free.ring.kind.Used? {
      c', vs := PutNext(c, c', d, vs, quiet);
    }
    c', vs := PutNext(c, c', d, vs, quiet);
    AmidDone(c.free, vs, c'.free, MakeItem(c.free.ring.kind, d, c.cfg.bufferSize));
  }

  lemma GivingParts(c: Channel, c1: Channel, d: nat, quiet: bool)
    requires Giving(c, c1, d, quiet)
    ensures c1.free.ring.kind == c.free.ring.kind && ChannelInv(c1)
  {
    hide ChannelInv, BuffersSame, ReturnFrame;
  }

  /** `vq_rx_free` with the index from a local variable */
  method VqRxFree(c: Channel, d: nat, ghost quiet: bool) returns (c': Channel)
    requires ChannelInv(c) && d in c.qLocal && c.free.ring.writer.WIdle?
    ensures Gave(c, c', d) && c'.qLocal == c.qLocal - multiset{d} && c'.qApp == c.qApp
    ensures IsWriteAmid(c.free, c'.free, MakeItem(c.free.ring.kind, d, c.cfg.bufferSize))
    ensures quiet ==> Returned(c, c', d) && IsWrite(c.free, c'.free, MakeItem(c.free.ring.kind, d, c.cfg.bufferSize))
  {
    hide ChannelInv, Gave, Returned, Returning, Giving, CanWrite, DoFree, Begun, IsWrite, IsWriteAmid;
    FreeStarts(c, d);
    HeldByConsumer(c, d);
    GivingFrom(c, DoFree(c, d), d, quiet);
    c' := FinishReturn(c, DoFree(c, d), d, [W(Place(MakeItem(c.free.ring.kind, d, c.cfg.bufferSize)))], quiet);
  }

  /** `rpmsg_lite_release_rx_buffer`: the index comes from the header of the buffer */
  method ReleaseRxBuffer(c: Channel, d: nat, ghost quiet: bool) returns (c': Channel)
    requires ChannelInv(c) && d in c.qApp && c.free.ring.writer.WIdle?
    ensures Gave(c, c', d) && c'.qApp == c.qApp - multiset{d} && c'.qLocal == c.qLocal
    ensures IsWriteAmid(c.free, c'.free, MakeItem(c.free.ring.kind, d, c.cfg.bufferSize))
    ensures quiet ==> Returned(c, c', d) && IsWrite(c.free, c'.free, MakeItem(c.free.ring.kind, d, c.cfg.bufferSize))
  {
    hide ChannelInv, Gave, Returned, Returning, Giving, CanWrite, DoRelease, Begun, IsWrite, IsWriteAmid;
    ReleaseStarts(c, d);
    HeldByConsumer(c, d);
    GivingFrom(c, DoRelease(c, d), d, quiet);
    c' := FinishReturn(c, DoRelease(c, d), d, [W(Place(MakeItem(c.free.ring.kind, d, c.cfg.bufferSize)))], quiet);
  }

  lemma HeldByConsumer(c: Channel, d: nat)
    requires ChannelInv(c) && (d in c.qLocal || d in c.qApp)
    ensures (c.qLocal + c.qApp)[d] <= 1
    ensures d in c.qLocal ==> (c.qLocal - multiset{d}) + c.qApp == c.qLocal + c.qApp - multiset{d}
    ensures d in c.qApp ==> c.qLocal + (c.qApp - multiset{d}) == c.qLocal + c.qApp - multiset{d}
  {
    hide LaneInv, LaneIds, DescOk, LensOk, Stashed, Fifo;
    assert Total(c)[d] <= 1;
  }

  lemma SameNext(l: Lane, m: Lane)
    requires m.ring.writer == l.ring.writer
    ensures NextWrite(m.ring) == NextWrite(l.ring)
    ensures !l.ring.writer.WIdle? ==> !NextWrite(l.ring).Place?
  {
  }

  // ---- sending

  /** What a send of d leaves alone, whatever the peer does meanwhile. */
  ghost predicate SendFrame(c: Channel, c': Channel, d: nat) {
    && c'.cfg == c.cfg && c'.desc == c.desc && c'.pLen == c.pLen
    && c'.data.ring.kind == c.data.ring.kind
    && c'.free.ring.reader == c.free.ring.reader && c'.free.ring.kind == c.free.ring.kind
    && BuffersSame(c, c', c.pLocal + c.pApp - multiset{d})
  }

  /** The producer's call: descriptor d has left the caller and is being written to the data ring. */
  ghost predicate Sending(c: Channel, c': Channel, d: nat) {
    && ChannelInv(c') && SendFrame(c, c', d) && c'.sent == c.sent
    && c'.pLocal + c'.pApp == c.pLocal + c.pApp - multiset{d}
    && c'.data.log == c.data.log && !c'.data.ring.writer.WIdle?
    && c'.data.ring.writer.item == MakeItem(c.data.ring.kind, d, c.cfg.bufferSize)
    && BufferOf(c', d) == BufferOf(c, d)
  }

  /** The message in the buffer of d has been published as the next one. */
  ghost predicate Sent(c: Channel, c': Channel, d: nat) {
    && ChannelInv(c') && SendFrame(c, c', d)
    && c'.data.log == c.data.log + [MakeItem(c.data.ring.kind, d, c.cfg.bufferSize)]
    && c'.data.ring.writer.WIdle?
    && c'.sent == c.sent + [View(BufferOf(c, d))]
  }

  lemma SendingFrom(c: Channel, c': Channel, d: nat)
    requires ChannelInv(c') && c'.mem == c.mem
    requires c' == c.(data := c'.data, pLocal := c'.pLocal, pApp := c'.pApp)
    requires c'.data.ring.kind == c.data.ring.kind && c'.data.log == c.data.log && !c'.data.ring.writer.WIdle?
    requires c'.data.ring.writer.item == MakeItem(c.data.ring.kind, d, c.cfg.bufferSize)
    requires c'.pLocal + c'.pApp == c.pLocal + c.pApp - multiset{d}
    ensures Sending(c, c', d)
  {
    hide ChannelInv;
  }

  lemma SendStarts(c: Channel, d: nat)
    requires ChannelInv(c) && d in c.pLocal && c.data.ring.writer.WIdle?
    ensures CanWrite(c.data.ring, Place(Slot(0, 0)))
    ensures var c' := DoSend(c, d);
            Sending(c, c', d) && c'.data.ring.writer.WPlaced?
            && c'.pLocal == c.pLocal - multiset{d} && c'.pApp == c.pApp
    ensures var item := MakeItem(c.data.ring.kind, d, c.cfg.bufferSize);
            Begun(c.data, [W(Place(item))], DoSend(c, d).data, item)
  {
    hide ChannelInv, LaneInv, Begun, Credit, CanWrite, Write, Sending, DoSend;
    DataLane(c);
    HolderCredit(c, d);
    CanPlace(c.data);
    SendKeeps(c, d);
    var item := MakeItem(c.data.ring.kind, d, c.cfg.bufferSize);
    SendShape(c, d);
    PlaceFrame(c.data, item);
    PlacementBegins(c.data, item);
    assert (c.pLocal - multiset{d}) + c.pApp == c.pLocal + c.pApp - multiset{d};
    SendingFrom(c, DoSend(c, d), d);
  }

  lemma SendShape(c: Channel, d: nat)
    requires ChannelInv(c) && d in c.pLocal && CanWrite(c.data.ring, Place(Slot(0, 0)))
    ensures var item := MakeItem(c.data.ring.kind, d, c.cfg.bufferSize);
            && CanWrite(c.data.ring, Place(item))
            && DoSend(c, d) == c.(data := Write(c.data, Place(item)), pLocal := c.pLocal - multiset{d})
  {
    hide ChannelInv, CanWrite, Write, Lookup;
    CanPlaceAny(c.data.ring, Slot(0, 0));
    PLength(c, d);
  }

  lemma PLength(c: Channel, d: nat)
    requires ChannelInv(c) && d in c.pLocal
    ensures Lookup(c.pLen, d) == c.cfg.bufferSize
  {
  }

  lemma SendNoCopyStarts(c: Channel, d: nat)
    requires ChannelInv(c) && d in c.pApp && c.data.ring.writer.WIdle?
    ensures CanWrite(c.data.ring, Place(Slot(0, 0)))
    ensures var c' := DoSendNoCopy(c, d);
            Sending(c, c', d) && c'.data.ring.writer.WPlaced?
            && c'.pApp == c.pApp - multiset{d} && c'.pLocal == c.pLocal
    ensures var item := MakeItem(c.data.ring.kind, d, c.cfg.bufferSize);
            Begun(c.data, [W(Place(item))], DoSendNoCopy(c, d).data, item)
  {
    hide ChannelInv, LaneInv, Begun, Credit, CanWrite, Write, Sending, DoSendNoCopy;
    DataLane(c);
    HolderCredit(c, d);
    CanPlace(c.data);
    SendNoCopyKeeps(c, d);
    var item := MakeItem(c.data.ring.kind, d, c.cfg.bufferSize);
    NoCopyShape(c, d);
    PlaceFrame(c.data, item);
    PlacementBegins(c.data, item);
    assert c.pLocal + (c.pApp - multiset{d}) == c.pLocal + c.pApp - multiset{d};
    SendingFrom(c, DoSendNoCopy(c, d), d);
  }

  lemma NoCopyShape(c: Channel, d: nat)
    requires ChannelInv(c) && d in c.pApp && CanWrite(c.data.ring, Place(Slot(0, 0)))
    ensures var item := MakeItem(c.data.ring.kind, d, c.cfg.bufferSize);
            && CanWrite(c.data.ring, Place(item))
            && DoSendNoCopy(c, d) == c.(data := Write(c.data, Place(item)), pApp := c.pApp - multiset{d})
  {
    hide ChannelInv, CanWrite, Write, BufferOf, DescLen;
    CanPlaceAny(c.data.ring, Slot(0, 0));
    AppNames(c, d);
    AppLength(c, d);
  }

  function Push(c: Channel): Channel
    requires CanWrite(c.data.ring, NextWrite(c.data.ring))
  {
    DoDataWrite(c, NextWrite(c.data.ring))
  }

  lemma PushStep(c: Channel, c1: Channel, d: nat)
    requires Sending(c, c1, d)
    ensures CanWrite(c1.data.ring, NextWrite(c1.data.ring))
    ensures Push(c1).pLocal == c1.pLocal && Push(c1).pApp == c1.pApp && Push(c1).data.ring.kind == c1.data.ring.kind
    ensures WriteOn(c1.data, Push(c1).data)
    ensures if Push(c1).data.ring.writer.WIdle? then Sent(c, Push(c1), d) else Sending(c, Push(c1), d)
  {
    hide ChannelInv, LaneInv, CanWrite, Write, BufferOf, View, BuffersSame;
    DataLane(c1);
    WriteOnLane(c1.data);
    var w := NextWrite(c1.data.ring);
    DataWriteKeeps(c1, w);
    WriteFrame(c1.data, w);
    SameBuffers(c, c1, Push(c1), d);
  }

  lemma SameBuffers(c: Channel, c1: Channel, c2: Channel, d: nat)
    requires c2.mem == c1.mem && c2.desc == c1.desc && BuffersSame(c, c1, c.pLocal + c.pApp - multiset{d})
    ensures BuffersSame(c, c2, c.pLocal + c.pApp - multiset{d}) && BufferOf(c2, d) == BufferOf(c1, d)
  {
  }

  /** The peer's moves leave a send where it is. */
  lemma PeerWhileSending(c: Channel, c1: Channel, c2: Channel, d: nat, vs: seq<Move>) returns (us: seq<Move>)
    requires Sending(c, c1, d) && PeerMoved(c1, c2) && Run(c.data, vs, c1.data)
    ensures Sending(c, c2, d) && c2.data.ring.writer == c1.data.ring.writer
    ensures c2.pLocal == c1.pLocal && c2.pApp == c1.pApp && c2.data.ring.kind == c1.data.ring.kind
    ensures Run(c.data, us, c2.data) && WriterPart(us) == WriterPart(vs)
  {
    hide ChannelInv, Run, WriterPart, BufferOf, BuffersSame;
    var ws :| Run(c1.data, ws, c2.data) && WriterPart(ws) == [];
    RunOn(c.data, vs, c1.data, ws, c2.data);
    us := vs + ws;
    RestSame(c, c1, c2, d);
  }

  lemma RestSame(c: Channel, c1: Channel, c2: Channel, d: nat)
    requires BuffersSame(c, c1, c.pLocal + c.pApp - multiset{d}) && BuffersSame(c1, c2, c1.pLocal + c1.pApp)
    requires c.pLocal + c.pApp - multiset{d} <= c1.pLocal + c1.pApp
    ensures BuffersSame(c, c2, c.pLocal + c.pApp - multiset{d})
  {
    hide BufferOf;
  }

  lemma PushMove(l: Lane, vs: seq<Move>, c: Channel)
    requires Run(l, vs, c.data) && CanWrite(c.data.ring, NextWrite(c.data.ring)) && !NextWrite(c.data.ring).Place?
    ensures var v := W(NextWrite(c.data.ring));
            && Run(l, vs + [v], Push(c).data)
            && WriterPart(vs + [v]) == WriterPart(vs) + [v.w] && ReaderPart(vs + [v]) == ReaderPart(vs)
  {
    hide Run, ReaderPart, WriterPart, CanWrite, Write;
    RunStep(l, vs, c.data, W(NextWrite(c.data.ring)));
  }

  method FinishSend(ghost c: Channel, c1: Channel, ghost d: nat, ghost vs0: seq<Move>) returns (c': Channel)
    requires Sending(c, c1, d) && c1.data.ring.writer.WPlaced?
    requires Begun(c.data, vs0, c1.data, MakeItem(c.data.ring.kind, d, c.cfg.bufferSize))
    ensures Sent(c, c', d) && c'.pLocal == c1.pLocal && c'.pApp == c1.pApp
    ensures IsWriteAmid(c.data, c'.data, MakeItem(c.data.ring.kind, d, c.cfg.bufferSize))
  {
    hide ChannelInv, CanWrite, Push, Sent, Sending, PeerMoved, Run, ReaderPart, WriterPart, IsWriteAmid;
    ghost var vs := vs0;
    SendingKind(c, c1, d);
    ghost var was := c1;
    c' := PeerMoves(c1);
    vs := PeerWhileSending(c, was, c', d, vs);
    PushStep(c, c', d);
    PushMove(c.data, vs, c');
    c', vs := Push(c'), vs + [W(StoreId)];
    SendingKind(c, c', d);
    was := c';
    c' := PeerMoves(c');
    vs := PeerWhileSending(c, was, c', d, vs);
    if c'.data.ring.kind.Used? {
      PushStep(c, c', d);
      PushMove(c.data, vs, c');
      c', vs := Push(c'), vs + [W(StoreLen)];
      SendingKind(c, c', d);
      was := c';
      c' := PeerMoves(c');
      vs := PeerWhileSending(c, was, c', d, vs);
    }
    PushStep(c, c', d);
    PushMove(c.data, vs, c');
    c', vs := Push(c'), vs + [W(Publish)];
    AmidDone(c.data, vs, c'.data, MakeItem(c.data.ring.kind, d, c.cfg.bufferSize));
  }

  lemma AmidDone(l: Lane, vs: seq<Move>, m: Lane, item: Slot)
    requires Run(l, vs, m)
    requires WriterPart(vs) == if l.ring.kind.Used? then [Place(item)] + [StoreId] + [StoreLen] + [Publish]
                               else [Place(item)] + [StoreId] + [Publish]
    ensures IsWriteAmid(l, m, item)
    ensures ReaderPart(vs) == [] ==> IsWrite(l, m, item)
  {
    hide Run, ReaderPart, WriterPart;
    CallSteps(l.ring.kind, item);
  }

  lemma SendingKind(c: Channel, c1: Channel, d: nat)
    requires Sending(c, c1, d)
    ensures c1.data.ring.kind == c.data.ring.kind
    ensures ChannelInv(c1)
  {
    hide ChannelInv, SendFrame;
    assert SendFrame(c, c1, d);
    KindSame(c, c1, d);
  }

  lemma KindSame(c: Channel, c1: Channel, d: nat)
    requires SendFrame(c, c1, d)
    ensures c1.data.ring.kind == c.data.ring.kind
  {
    hide BuffersSame;
  }

  /** `vq_tx` with the index from a local variable */
  method VqTx(c: Channel, d: nat) returns (c': Channel)
    requires ChannelInv(c) && d in c.pLocal && c.data.ring.writer.WIdle?
    ensures Sent(c, c', d) && c'.pLocal == c.pLocal - multiset{d} && c'.pApp == c.pApp
    ensures IsWriteAmid(c.data, c'.data, MakeItem(c.data.ring.kind, d, c.cfg.bufferSize))
  {
    hide ChannelInv, Sent, Sending, CanWrite, DoSend, Begun, IsWriteAmid;
    SendStarts(c, d);
    c' := FinishSend(c, DoSend(c, d), d, [W(Place(MakeItem(c.data.ring.kind, d, c.cfg.bufferSize)))]);
  }

  /** `vq_tx` with the index from the header of the buffer */
  method VqTxNoCopy(c: Channel, d: nat) returns (c': Channel)
    requires ChannelInv(c) && d in c.pApp && c.data.ring.writer.WIdle?
    ensures Sent(c, c', d) && c'.pApp == c.pApp - multiset{d} && c'.pLocal == c.pLocal
    ensures IsWriteAmid(c.data, c'.data, MakeItem(c.data.ring.kind, d, c.cfg.bufferSize))
  {
    hide ChannelInv, Sent, Sending, CanWrite, DoSendNoCopy, Begun, IsWriteAmid;
    SendNoCopyStarts(c, d);
    c' := FinishSend(c, DoSendNoCopy(c, d), d, [W(Place(MakeItem(c.data.ring.kind, d, c.cfg.bufferSize)))]);
  }
}
