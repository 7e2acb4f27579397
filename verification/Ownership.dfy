/** What each core can rely on while the other one moves: its own calls in progress, its histories
    and every buffer it holds stay as they are.
 */
module Ownership {
  import opened Words
  import opened Lanes
  import opened Channels
  import opened ChannelSteps
  import opened System
  import opened SystemProof

  ghost predicate BuffersSame(c: Channel, c': Channel, ds: multiset<nat>) {
    forall d | d in ds :: BufferOf(c', d) == BufferOf(c, d)
  }

  /** The producer's part of a channel. */
  ghost predicate ProducerSame(c: Channel, c': Channel) {
    && c'.cfg == c.cfg && c'.desc == c.desc
    && c'.pLocal == c.pLocal && c'.pApp == c.pApp && c'.pLen == c.pLen && c'.sent == c.sent
    && c'.data.ring.writer == c.data.ring.writer && c'.data.ring.kind == c.data.ring.kind
    && c'.free.ring.reader == c.free.ring.reader && c'.free.ring.kind == c.free.ring.kind
    && BuffersSame(c, c', c.pLocal + c.pApp)
  }

  /** The consumer's part. */
  ghost predicate ConsumerSame(c: Channel, c': Channel) {
    && c'.cfg == c.cfg && c'.desc == c.desc
    && c'.qLocal == c.qLocal && c'.qApp == c.qApp && c'.qLen == c.qLen && c'.delivered == c.delivered
    && c'.free.ring.writer == c.free.ring.writer && c'.free.ring.kind == c.free.ring.kind
    && c'.data.ring.reader == c.data.ring.reader && c'.data.ring.kind == c.data.ring.kind
    && BuffersSame(c, c', c.qLocal + c.qApp)
  }

  /** The descriptors whose buffers a step may write to. */
  function Touched(t: Step): multiset<nat> {
    match t
    case HandOut(d) => multiset{d}
    case Header(d, _, _, _, _) => multiset{d}
    case Copy(d, _) => multiset{d}
    case AppWrite(d, _) => multiset{d}
    case Hold(d) => multiset{d}
    case Free(d) => multiset{d}
    case Release(d) => multiset{d}
    case _ => multiset{}
  }

  lemma SetBufferOnly(c: Channel, d: nat, b: Buffer, e: nat)
    requires DescOk(c) && e != d
    ensures BufferOf(SetBuffer(c, d, b), e) == BufferOf(c, e)
  {
    SetBufferFrame(c, d, b);
  }

  /** A step leaves every buffer alone that it does not touch. */
  lemma UntouchedBuffer(c: Channel, t: Step, e: nat)
    requires DescOk(c) && Enabled(c, t) && !t.Seed? && e !in Touched(t)
    ensures BufferOf(Apply(c, t), e) == BufferOf(c, e)
  {
    if t.Alloc? || t.Send? || t.SendNoCopy? || t.DataWrite? || t.Receive? || t.FreeWrite? {
      hide DescOk, Enabled, Apply, BufferOf, Touched;
      MemoryUntouched(c, t);
      SameMemory(c, Apply(c, t), e);
    } else {
      hide DescOk, Enabled, BufferOf, DoHandOut, DoHeader, DoCopy, DoAppWrite, DoHold, DoFree, DoRelease;
      OneBuffer(c, t, e);
    }
  }

  lemma OneBuffer(c: Channel, t: Step, e: nat)
    requires DescOk(c) && Enabled(c, t) && e !in Touched(t)
    requires t.HandOut? || t.Header? || t.Copy? || t.AppWrite? || t.Hold? || t.Free? || t.Release?
    ensures BufferOf(Apply(c, t), e) == BufferOf(c, e)
  {
    hide DescOk, CanWrite, BufferOf, DoHandOut, DoHeader, DoCopy, DoAppWrite, DoHold, DoFree, DoRelease;
    match t {
      case HandOut(d) => HandOutOnly(c, d, e);
      case Header(d, src, dst, size, flags) => HeaderOnly(c, d, src, dst, size, flags, e);
      case Copy(d, bytes) => CopyOnly(c, d, bytes, e);
      case AppWrite(d, payload) => AppWriteOnly(c, d, payload, e);
      case Hold(d) => HoldOnly(c, d, e);
      case Free(d) => FreeOnly(c, d, e);
      case Release(d) => ReleaseOnly(c, d, e);
    }
  }

  lemma MemoryUntouched(c: Channel, t: Step)
    requires Enabled(c, t)
    requires t.Alloc? || t.Send? || t.SendNoCopy? || t.DataWrite? || t.Receive? || t.FreeWrite?
    ensures Apply(c, t).mem == c.mem && Apply(c, t).desc == c.desc
  {
    if t.Alloc? || t.Receive? {
      hide CanRead, CanWrite, BufferOf, Write, Read, TakenLen, View, DescLen;
    } else if t.DataWrite? || t.FreeWrite? {
      hide CanRead, CanWrite, BufferOf, Write, Read, TakenLen, View, DescLen;
    } else {
      SendUntouched(c, t);
    }
  }

  lemma SendUntouched(c: Channel, t: Step)
    requires Enabled(c, t) && (t.Send? || t.SendNoCopy?)
    ensures Apply(c, t).mem == c.mem && Apply(c, t).desc == c.desc
  {
    hide CanRead, CanWrite, BufferOf, Write, Read, Lookup, DescLen;
  }

  lemma SameMemory(c: Channel, c': Channel, e: nat)
    requires c'.mem == c.mem && c'.desc == c.desc
    ensures BufferOf(c', e) == BufferOf(c, e)
  {
  }

  lemma HandOutOnly(c: Channel, d: nat, e: nat)
    requires DescOk(c) && e != d
    ensures BufferOf(DoHandOut(c, d), e) == BufferOf(c, e)
  {
    hide DescOk, SetBuffer;
    SetBufferOnly(c, d, BufferOf(c, d).(idx := d % U16), e);
  }

  lemma HoldOnly(c: Channel, d: nat, e: nat)
    requires DescOk(c) && e != d
    ensures BufferOf(DoHold(c, d), e) == BufferOf(c, e)
  {
    hide DescOk, SetBuffer;
    SetBufferOnly(c, d, BufferOf(c, d).(idx := d % U16), e);
  }

  lemma HeaderOnly(c: Channel, d: nat, src: u32, dst: u32, size: nat, flags: nat, e: nat)
    requires DescOk(c) && e != d
    ensures BufferOf(DoHeader(c, d, src, dst, size, flags), e) == BufferOf(c, e)
  {
    hide DescOk, SetBuffer;
    SetBufferOnly(c, d, BufferOf(c, d).(src := src, dst := dst, len := size % U16, flags := flags % U16), e);
  }

  lemma AppWriteOnly(c: Channel, d: nat, payload: seq<u8>, e: nat)
    requires DescOk(c) && e != d
    ensures BufferOf(DoAppWrite(c, d, payload), e) == BufferOf(c, e)
  {
    hide DescOk, SetBuffer;
    SetBufferOnly(c, d, BufferOf(c, d).(payload := payload), e);
  }

  lemma FreeOnly(c: Channel, d: nat, e: nat)
    requires DescOk(c) && CanWrite(c.free.ring, Place(Slot(0, 0))) && e != d
    ensures BufferOf(DoFree(c, d), e) == BufferOf(c, e)
  {
    hide DescOk, CanWrite, Write, BufferOf, Cleared;
    CanPlaceAny(c.free.ring, Slot(0, 0));
    ClearedOnly(c, Write(c.free, Place(MakeItem(c.free.ring.kind, d, Lookup(c.qLen, d)))),
                c.qLocal - multiset{d}, c.qApp, d, e);
  }

  lemma ReleaseOnly(c: Channel, d: nat, e: nat)
    requires DescOk(c) && CanWrite(c.free.ring, Place(Slot(0, 0))) && e != d
    ensures BufferOf(DoRelease(c, d), e) == BufferOf(c, e)
  {
    hide DescOk, CanWrite, Write, BufferOf, Cleared;
    CanPlaceAny(c.free.ring, Slot(0, 0));
    var i := BufferOf(c, d).idx;
    ClearedOnly(c, Write(c.free, Place(MakeItem(c.free.ring.kind, i, DescLen(c, i)))),
                c.qLocal, c.qApp - multiset{d}, d, e);
  }

  lemma CopyOnly(c: Channel, d: nat, bytes: seq<u8>, e: nat)
    requires DescOk(c) && e != d
    ensures BufferOf(DoCopy(c, d, bytes), e) == BufferOf(c, e)
  {
    hide DescOk, SetBuffer;
    var was := BufferOf(c, d).payload;
    SetBufferOnly(c, d, BufferOf(c, d).(payload := if |bytes| <= |was| then bytes + was[|bytes|..] else bytes), e);
  }

  lemma ClearedOnly(c: Channel, l: Lane, qLocal: multiset<nat>, qApp: multiset<nat>, d: nat, e: nat)
    requires DescOk(c) && e != d
    ensures BufferOf(Cleared(c.(free := l, qLocal := qLocal, qApp := qApp), d), e) == BufferOf(c, e)
  {
    var c1 := c.(free := l, qLocal := qLocal, qApp := qApp);
    FrameDesc(c, c1);
    hide DescOk, SetBuffer, Zeroed;
    if c.cfg.clearUsed && HEADER_SIZE <= c.cfg.bufferSize { SetBufferOnly(c1, d, Zeroed(c.cfg), e); }
  }

  /** What a step touches, its core holds. */
  lemma TouchedIsHeld(c: Channel, t: Step)
    requires Enabled(c, t)
    ensures ProducerStep(t) ==> forall d | d in Touched(t) :: d in c.pLocal || d in c.pApp
    ensures ConsumerStep(t) ==> forall d | d in Touched(t) :: d in c.qLocal || d in c.qApp
  {
    hide CanRead, CanWrite;
  }

  lemma HeldOnce(c: Channel, d: nat)
    requires ChannelInv(c)
    ensures d in c.pLocal || d in c.pApp ==> d !in c.qLocal && d !in c.qApp
  {
    assert Total(c)[d] <= 1;
  }

  /** A step of the consumer neither disturbs the producer nor changes a buffer that it holds. */
  lemma ConsumerSparesProducer(c: Channel, t: Step)
    requires ChannelInv(c) && ConsumerStep(t) && Enabled(c, t)
    ensures ProducerSame(c, Apply(c, t))
  {
    hide ChannelInv, Enabled, Apply, ConsumerStep;
    ConsumerShape(c, t);
    forall d | d in c.pLocal + c.pApp ensures BufferOf(Apply(c, t), d) == BufferOf(c, d) {
      Spared(c, t, d);
    }
  }

  lemma Spared(c: Channel, t: Step, d: nat)
    requires ChannelInv(c) && Enabled(c, t) && !t.Seed?
    requires || (ConsumerStep(t) && (d in c.pLocal || d in c.pApp))
             || (ProducerStep(t) && (d in c.qLocal || d in c.qApp))
    ensures BufferOf(Apply(c, t), d) == BufferOf(c, d)
  {
    hide ChannelInv, Enabled, Apply, ConsumerStep, ProducerStep, Touched;
    HeldOnce(c, d);
    TouchedIsHeld(c, t);
    DescPart(c);
    UntouchedBuffer(c, t, d);
  }

  lemma DescPart(c: Channel)
    requires ChannelInv(c)
    ensures DescOk(c)
  {
  }

  /** A step of the producer neither disturbs the consumer nor changes a buffer that it holds. */
  lemma ProducerSparesConsumer(c: Channel, t: Step)
    requires ChannelInv(c) && ProducerStep(t) && Enabled(c, t)
    ensures ConsumerSame(c, Apply(c, t))
  {
    hide ChannelInv, Enabled, Apply, ProducerStep;
    ProducerShape(c, t);
    forall d | d in c.qLocal + c.qApp ensures BufferOf(Apply(c, t), d) == BufferOf(c, d) {
      Spared(c, t, d);
    }
  }

  lemma ConsumerShape(c: Channel, t: Step)
    requires ConsumerStep(t) && Enabled(c, t)
    ensures var c' := Apply(c, t);
            && c'.cfg == c.cfg && c'.desc == c.desc && !t.Seed?
            && c'.pLocal == c.pLocal && c'.pApp == c.pApp && c'.pLen == c.pLen && c'.sent == c.sent
            && c'.data.ring.writer == c.data.ring.writer && c'.data.ring.kind == c.data.ring.kind
            && c'.free.ring.reader == c.free.ring.reader && c'.free.ring.kind == c.free.ring.kind
  {
    hide CanRead, CanWrite, Write, Read, TakenLen, View, Cleared, SetBuffer;
    match t {
      case Receive(r) => ReadFrame(c.data, r);
      case Hold(d) => BufferFrame(c, d, BufferOf(c, d).(idx := d % U16));
      case Free(d) =>
        CanPlaceAny(c.free.ring, Slot(0, 0));
        PlaceLeavesReader(c.free, MakeItem(c.free.ring.kind, d, Lookup(c.qLen, d)));
        ClearedFrame(c.(free := Write(c.free, Place(MakeItem(c.free.ring.kind, d, Lookup(c.qLen, d)))),
                        qLocal := c.qLocal - multiset{d}), d);
      case Release(d) =>
        CanPlaceAny(c.free.ring, Slot(0, 0));
        var i := BufferOf(c, d).idx;
        PlaceLeavesReader(c.free, MakeItem(c.free.ring.kind, i, DescLen(c, i)));
        ClearedFrame(c.(free := Write(c.free, Place(MakeItem(c.free.ring.kind, i, DescLen(c, i)))),
                        qApp := c.qApp - multiset{d}), d);
      case FreeWrite(w) => WriteFrame(c.free, w);
    }
  }

  lemma PlaceLeavesReader(l: Lane, item: Slot)
    requires CanWrite(l.ring, Place(item))
    ensures var l' := Write(l, Place(item));
            l'.ring.reader == l.ring.reader && l'.ring.cursor == l.ring.cursor && l'.ring.kind == l.ring.kind
  {
  }

  lemma ProducerShape(c: Channel, t: Step)
    requires ProducerStep(t) && Enabled(c, t)
    ensures var c' := Apply(c, t);
            && c'.cfg == c.cfg && c'.desc == c.desc && !t.Seed?
            && c'.qLocal == c.qLocal && c'.qApp == c.qApp && c'.qLen == c.qLen && c'.delivered == c.delivered
            && c'.free.ring.writer == c.free.ring.writer && c'.free.ring.kind == c.free.ring.kind
            && c'.data.ring.reader == c.data.ring.reader && c'.data.ring.kind == c.data.ring.kind
  {
    hide CanRead, CanWrite, Write, Read, TakenLen, View, SetBuffer;
    match t {
      case Alloc(r) => ReadFrame(c.free, r);
      case HandOut(d) => BufferFrame(c, d, BufferOf(c, d).(idx := d % U16));
      case Header(d, src, dst, size, flags) =>
        BufferFrame(c, d, BufferOf(c, d).(src := src, dst := dst, len := size % U16, flags := flags % U16));
      case Copy(d, bytes) => CopyFrame(c, d, bytes);
      case AppWrite(d, payload) => BufferFrame(c, d, BufferOf(c, d).(payload := payload));
      case Send(d) =>
        CanPlaceAny(c.data.ring, Slot(0, 0));
        PlaceLeavesReader(c.data, MakeItem(c.data.ring.kind, d, Lookup(c.pLen, d)));
      case SendNoCopy(d) =>
        CanPlaceAny(c.data.ring, Slot(0, 0));
        var i := BufferOf(c, d).idx;
        PlaceLeavesReader(c.data, MakeItem(c.data.ring.kind, i, DescLen(c, i)));
      case DataWrite(w) => WriteFrame(c.data, w);
    }
  }

  /** A buffer whose entry is being written to the data ring belongs to nobody: no step touches it. */
  lemma WrittenBufferSpared(c: Channel, t: Step)
    requires ChannelInv(c) && !c.data.ring.writer.WIdle? && Enabled(c, t) && (ProducerStep(t) || ConsumerStep(t))
    ensures BufferOf(Apply(c, t), c.data.ring.writer.item.id) == BufferOf(c, c.data.ring.writer.item.id)
  {
    hide ChannelInv, Enabled, Apply, Touched;
    WriterHoldsAlone(c);
    TouchedIsHeld(c, t);
    DescPart(c);
    NoSeed(t);
    UntouchedBuffer(c, t, c.data.ring.writer.item.id);
  }

  lemma NoSeed(t: Step)
    requires ProducerStep(t) || ConsumerStep(t)
    ensures !t.Seed?
  {
  }

  lemma WriterHoldsAlone(c: Channel)
    requires ChannelInv(c) && !c.data.ring.writer.WIdle?
    ensures var d := c.data.ring.writer.item.id;
            d !in c.pLocal && d !in c.pApp && d !in c.qLocal && d !in c.qApp
  {
    hide LaneInv, DescOk, LensOk, Stashed, Fifo;
    assert Total(c)[c.data.ring.writer.item.id] <= 1;
  }

  /** Writing the index into the header changes nothing that the callback sees. */
  lemma HoldKeepsMessage(c: Channel, d: nat)
    requires ChannelInv(c) && d in c.qLocal
    ensures View(BufferOf(DoHold(c, d), d)) == View(BufferOf(c, d))
  {
    hide ChannelInv;
    HeldBuffer(c, d);
    DescPart(c);
    hide DescOk, HasBuffer, BufferOf, SetBuffer;
    var b := BufferOf(c, d).(idx := d % U16);
    SetBufferFrame(c, d, b);
    BufferFrame(c, d, b);
    SameMemory(SetBuffer(c, d, b), DoHold(c, d), d);
  }
}
