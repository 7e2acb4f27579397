/** The steps of the two cores on a channel, and the proof that each keeps the channel invariant.

    The lane steps are single accesses to shared memory. Reading or writing a buffer that a core
    holds is one step: the invariant shows that the other core does not touch it meanwhile.
 */
module ChannelSteps {
  import opened Words
  import opened Lanes
  import opened Channels

  datatype Step =
    // producer
    | Alloc(read: ReaderStep)                      // vq_tx_alloc
    | HandOut(d: nat)                              // rpmsg_lite_alloc_tx_buffer returns the payload
    | Header(d: nat, src: u32, dst: u32, size: nat, flags: nat)
    | Copy(d: nat, bytes: seq<u8>)                 // env_memcpy in rpmsg_lite_format_message
    | AppWrite(d: nat, payload: seq<u8>)           // the application fills its buffer
    | Send(d: nat)                                 // vq_tx, index from a local variable
    | SendNoCopy(d: nat)                           // vq_tx, index from the buffer header
    | DataWrite(write: WriterStep)
    // consumer
    | Receive(read: ReaderStep)                    // vq_rx
    | Hold(d: nat)                                 // callback answered RL_HOLD
    | Free(d: nat)                                 // vq_rx_free, index from a local variable
    | Release(d: nat)                              // vq_rx_free, index from the buffer header
    | FreeWrite(write: WriterStep)
    // the master's initialisation
    | Seed(addr: nat)                              // virtqueue_fill_avail_buffers / _fill_used_buffers

  function MakeItem(kind: Kind, id: nat, len: nat): Slot {
    Slot(id, ItemLen(kind, len))
  }

  /** `desc[i].len`, as virtqueue_get_buffer_length and virtqueue_get_available_buffer read it. */
  function DescLen(c: Channel, i: nat): nat {
    if i < |c.desc| then c.desc[i].len else 0
  }

  /** The length reported with a taken entry: the avail reader looks into the descriptor table, the
      used reader into the entry. */
  function TakenLen(c: Channel, l: Lane): nat
    requires l.ring.reader.RHas?
  {
    var item := l.ring.reader.item;
    if l.ring.kind.Avail? then DescLen(c, item.id) else item.len
  }

  function SetBuffer(c: Channel, d: nat, b: Buffer): Channel {
    if HasBuffer(c, d) then c.(mem := c.mem[c.desc[d].addr := b]) else c
  }

  function Cleared(c: Channel, d: nat): Channel {
    if c.cfg.clearUsed && HEADER_SIZE <= c.cfg.bufferSize then SetBuffer(c, d, Zeroed(c.cfg)) else c
  }

  function Lookup(m: map<nat, nat>, d: nat): nat {
    if d in m then m[d] else 0
  }

  predicate Enabled(c: Channel, s: Step) {
    match s {
      case Alloc(r) => CanRead(c.free.ring, r)
      case HandOut(d) => d in c.pLocal
      case Header(d, _, _, size, _) => (d in c.pLocal || d in c.pApp) && size <= c.cfg.payloadSize
      case Copy(d, bytes) => d in c.pLocal && |bytes| <= c.cfg.payloadSize
      case AppWrite(d, payload) => d in c.pApp && |payload| == Capacity(c.cfg)
      case Send(d) => d in c.pLocal && CanWrite(c.data.ring, Place(Slot(0, 0)))
      case SendNoCopy(d) => d in c.pApp && CanWrite(c.data.ring, Place(Slot(0, 0)))
      case DataWrite(w) => !w.Place? && CanWrite(c.data.ring, w)
      case Receive(r) => CanRead(c.data.ring, r)
      case Hold(d) => d in c.qLocal
      case Free(d) => d in c.qLocal && CanWrite(c.free.ring, Place(Slot(0, 0)))
      case Release(d) => d in c.qApp && CanWrite(c.free.ring, Place(Slot(0, 0)))
      case FreeWrite(w) => !w.Place? && CanWrite(c.free.ring, w)
      case Seed(a) => CanSeed(c, a)
    }
  }

  /** There is a descriptor left to set up, and the buffer is none of those set up so far. */
  predicate CanSeed(c: Channel, a: nat) {
    && |c.desc| < c.cfg.n && CanWrite(c.free.ring, Place(Slot(0, 0))) && HEADER_SIZE <= c.cfg.bufferSize
    && (forall i | 0 <= i < |c.desc| :: c.desc[i].addr != a)
  }

  function DoAlloc(c: Channel, r: ReaderStep): Channel
    requires CanRead(c.free.ring, r)
  {
    var c1 := c.(free := Read(c.free, r));
    if !r.Take? then c1 else
    var d := c.free.ring.reader.item.id;
    c1.(pLocal := c.pLocal + multiset{d}, pLen := c.pLen[d := TakenLen(c, c.free)])
  }

  function DoHandOut(c: Channel, d: nat): Channel {
    var c1 := SetBuffer(c, d, BufferOf(c, d).(idx := d % U16));
    c1.(pLocal := c.pLocal - multiset{d}, pApp := c.pApp + multiset{d})
  }

  /** The four header fields that sending writes; `reserved.idx` is not among them. */
  function DoHeader(c: Channel, d: nat, src: u32, dst: u32, size: nat, flags: nat): Channel {
    SetBuffer(c, d, BufferOf(c, d).(src := src, dst := dst, len := size % U16, flags := flags % U16))
  }

  function DoCopy(c: Channel, d: nat, bytes: seq<u8>): Channel {
    var was := BufferOf(c, d).payload;
    SetBuffer(c, d, BufferOf(c, d).(payload := if |bytes| <= |was| then bytes + was[|bytes|..] else bytes))
  }

  function DoAppWrite(c: Channel, d: nat, payload: seq<u8>): Channel {
    SetBuffer(c, d, BufferOf(c, d).(payload := payload))
  }

  function DoSend(c: Channel, d: nat): Channel
    requires CanWrite(c.data.ring, Place(Slot(0, 0)))
  {
    c.(data := Write(c.data, Place(MakeItem(c.data.ring.kind, d, Lookup(c.pLen, d)))),
       pLocal := c.pLocal - multiset{d})
  }

  function DoSendNoCopy(c: Channel, d: nat): Channel
    requires CanWrite(c.data.ring, Place(Slot(0, 0)))
  {
    var i := BufferOf(c, d).idx;
    c.(data := Write(c.data, Place(MakeItem(c.data.ring.kind, i, DescLen(c, i)))),
       pApp := c.pApp - multiset{d})
  }

  function DoDataWrite(c: Channel, w: WriterStep): Channel
    requires CanWrite(c.data.ring, w)
  {
    c.(data := Write(c.data, w),
       sent := if w.Publish? then c.sent + [View(BufferOf(c, c.data.ring.writer.item.id))] else c.sent)
  }

  function DoReceive(c: Channel, r: ReaderStep): Channel
    requires CanRead(c.data.ring, r)
  {
    var c1 := c.(data := Read(c.data, r));
    if !r.Take? then c1 else
    var d := c.data.ring.reader.item.id;
    c1.(qLocal := c.qLocal + multiset{d}, qLen := c.qLen[d := TakenLen(c, c.data)],
        delivered := c.delivered + [View(BufferOf(c, d))])
  }

  function DoHold(c: Channel, d: nat): Channel {
    var c1 := SetBuffer(c, d, BufferOf(c, d).(idx := d % U16));
    c1.(qLocal := c.qLocal - multiset{d}, qApp := c.qApp + multiset{d})
  }

  function DoFree(c: Channel, d: nat): Channel
    requires CanWrite(c.free.ring, Place(Slot(0, 0)))
  {
    Cleared(c.(free := Write(c.free, Place(MakeItem(c.free.ring.kind, d, Lookup(c.qLen, d)))),
               qLocal := c.qLocal - multiset{d}), d)
  }

  function DoRelease(c: Channel, d: nat): Channel
    requires CanWrite(c.free.ring, Place(Slot(0, 0)))
  {
    var i := BufferOf(c, d).idx;
    Cleared(c.(free := Write(c.free, Place(MakeItem(c.free.ring.kind, i, DescLen(c, i)))),
               qApp := c.qApp - multiset{d}), d)
  }

  function DoFreeWrite(c: Channel, w: WriterStep): Channel
    requires CanWrite(c.free.ring, w)
  {
    c.(free := Write(c.free, w))
  }

  function DoSeed(c: Channel, a: nat): Channel
    requires CanWrite(c.free.ring, Place(Slot(0, 0))) && HEADER_SIZE <= c.cfg.bufferSize
  {
    c.(desc := c.desc + [Desc(a, c.cfg.bufferSize)],
       mem := c.mem[a := Zeroed(c.cfg)],
       free := Write(c.free, Place(MakeItem(c.free.ring.kind, |c.desc|, c.cfg.bufferSize))))
  }

  function Apply(c: Channel, s: Step): Channel
    requires Enabled(c, s)
  {
    match s {
      case Alloc(r) => DoAlloc(c, r)
      case HandOut(d) => DoHandOut(c, d)
      case Header(d, src, dst, size, flags) => DoHeader(c, d, src, dst, size, flags)
      case Copy(d, bytes) => DoCopy(c, d, bytes)
      case AppWrite(d, payload) => DoAppWrite(c, d, payload)
      case Send(d) => DoSend(c, d)
      case SendNoCopy(d) => DoSendNoCopy(c, d)
      case DataWrite(w) => DoDataWrite(c, w)
      case Receive(r) => DoReceive(c, r)
      case Hold(d) => DoHold(c, d)
      case Free(d) => DoFree(c, d)
      case Release(d) => DoRelease(c, d)
      case FreeWrite(w) => DoFreeWrite(c, w)
      case Seed(a) => DoSeed(c, a)
    }
  }

  // ---- buffers

  ghost predicate NotPending(c: Channel, d: nat) {
    forall k | c.data.taken <= k < |c.data.log| :: c.data.log[k].id != d
  }

  /** A buffer that is not pending on the data lane can be written; the index in the header must
      survive while the application has the buffer. */
  lemma SetBufferKeeps(c: Channel, d: nat, b: Buffer)
    requires ChannelInv(c) && BufferOk(c.cfg, b) && NotPending(c, d)
    requires d in c.pApp || d in c.qApp ==> b.idx == d
    ensures ChannelInv(SetBuffer(c, d, b))
  {
    SetBufferDesc(c, d, b);
    SetBufferFifo(c, d, b);
    SetBufferStash(c, d, b);
    SetBufferRest(c, d, b);
  }

  lemma SetBufferDesc(c: Channel, d: nat, b: Buffer)
    requires DescOk(c) && BufferOk(c.cfg, b)
    ensures DescOk(SetBuffer(c, d, b))
  {
  }

  lemma SetBufferFifo(c: Channel, d: nat, b: Buffer)
    requires DescOk(c) && Fifo(c) && NotPending(c, d)
    ensures Fifo(SetBuffer(c, d, b))
  {
    SetBufferFrame(c, d, b);
  }

  lemma SetBufferStash(c: Channel, d: nat, b: Buffer)
    requires DescOk(c) && Stashed(c)
    requires d in c.pApp || d in c.qApp ==> b.idx == d
    ensures Stashed(SetBuffer(c, d, b))
  {
    SetBufferFrame(c, d, b);
  }

  lemma SetBufferRest(c: Channel, d: nat, b: Buffer)
    requires LanesOk(c) && Conserved(c) && LensOk(c)
    ensures var c' := SetBuffer(c, d, b); LanesOk(c') && Conserved(c') && LensOk(c')
  {
    var c' := SetBuffer(c, d, b);
    assert Total(c') == Total(c);
  }

  lemma SetBufferFrame(c: Channel, d: nat, b: Buffer)
    requires DescOk(c)
    ensures var c' := SetBuffer(c, d, b);
            && (forall e :: HasBuffer(c', e) <==> HasBuffer(c, e))
            && (forall e | e != d :: BufferOf(c', e) == BufferOf(c, e))
            && (HasBuffer(c, d) ==> BufferOf(c', d) == b)
  {
  }

  lemma HeldBuffer(c: Channel, d: nat)
    requires ChannelInv(c) && d in Held(c)
    ensures d < |c.desc| && d < U16 && HasBuffer(c, d) && BufferOk(c.cfg, BufferOf(c, d))
    ensures NotPending(c, d)
  {
    assert d in Total(c);
    forall k | c.data.taken <= k < |c.data.log| ensures c.data.log[k].id != d {
      HeldIsNotPending(c, d, k);
    }
  }

  // ---- frames: which parts of the invariant a change leaves alone

  lemma FrameDesc(c: Channel, c': Channel)
    requires DescOk(c) && c'.cfg == c.cfg && c'.desc == c.desc && c'.mem == c.mem
    ensures DescOk(c')
  {
  }

  lemma FrameStash(c: Channel, c': Channel)
    requires Stashed(c) && c'.desc == c.desc && c'.mem == c.mem
    requires c'.pApp <= c.pApp && c'.qApp <= c.qApp
    ensures Stashed(c')
  {
  }

  lemma FrameFifo(c: Channel, c': Channel)
    requires Fifo(c) && c'.desc == c.desc && c'.mem == c.mem
    requires c'.data.log == c.data.log && c'.data.taken == c.data.taken
    requires c'.sent == c.sent && c'.delivered == c.delivered
    ensures Fifo(c')
  {
  }

  lemma FrameConserved(c: Channel, c': Channel)
    requires Conserved(c) && c'.desc == c.desc && Total(c') == Total(c)
    ensures Conserved(c')
  {
  }

  lemma FrameLens(c: Channel, c': Channel)
    requires LensOk(c) && c'.cfg == c.cfg
    requires LaneLens(c'.data, c.cfg.bufferSize) && LaneLens(c'.free, c.cfg.bufferSize)
    requires c'.pLocal <= c.pLocal && c'.qLocal <= c.qLocal && c'.pLen == c.pLen && c'.qLen == c.qLen
    ensures LensOk(c')
  {
  }

  lemma LensParts(c: Channel)
    requires LensOk(c)
    ensures LaneLens(c.data, c.cfg.bufferSize) && LaneLens(c.free, c.cfg.bufferSize)
  {
  }

  lemma BothLanes(c: Channel)
    requires LanesOk(c)
    ensures LaneInv(c.data) && LaneInv(c.free)
  {
  }

  lemma CanTake(l: Lane, r: ReaderStep)
    requires CanRead(l.ring, r)
    ensures r.Take? ==> l.ring.reader.RHas?
  {
  }

  lemma CanPlaceAny(r: Ring, item: Slot)
    requires CanWrite(r, Place(item))
    ensures r.writer.WIdle? && forall any :: CanWrite(r, Place(any))
  {
  }

  lemma CanPlace(l: Lane)
    requires LaneInv(l) && l.ring.writer.WIdle?
    ensures forall item :: CanWrite(l.ring, Place(item))
  {
  }

  // ---- handing buffers to the application

  lemma HandOutKeeps(c: Channel, d: nat)
    requires ChannelInv(c) && d in c.pLocal
    ensures ChannelInv(DoHandOut(c, d))
  {
    hide ChannelInv;
    HeldBuffer(c, d);
    OnePlace(c, d);
    var b := BufferOf(c, d).(idx := d % U16);
    SetBufferKeeps(c, d, b);
    MoveToApp(SetBuffer(c, d, b), d, c.pLocal - multiset{d}, c.pApp + multiset{d}, c.qLocal, c.qApp);
  }

  lemma HoldKeeps(c: Channel, d: nat)
    requires ChannelInv(c) && d in c.qLocal
    ensures ChannelInv(DoHold(c, d))
  {
    hide ChannelInv;
    HeldBuffer(c, d);
    OnePlace(c, d);
    var b := BufferOf(c, d).(idx := d % U16);
    SetBufferKeeps(c, d, b);
    MoveToApp(SetBuffer(c, d, b), d, c.pLocal, c.pApp, c.qLocal - multiset{d}, c.qApp + multiset{d});
  }

  /** What a call holds locally is not with the application. */
  lemma OnePlace(c: Channel, d: nat)
    requires ChannelInv(c)
    ensures d in c.pLocal || d in c.qLocal ==> d !in c.pApp && d !in c.qApp
  {
    assert Total(c)[d] <= 1;
  }

  /** A descriptor whose buffer names it can move from a call to the application. */
  lemma MoveToApp(c: Channel, d: nat, pLocal: multiset<nat>, pApp: multiset<nat>,
                  qLocal: multiset<nat>, qApp: multiset<nat>)
    requires ChannelInv(c) && HasBuffer(c, d) && BufferOf(c, d).idx == d
    requires pLocal <= c.pLocal && qLocal <= c.qLocal
    requires pApp == c.pApp || pApp == c.pApp + multiset{d}
    requires qApp == c.qApp || qApp == c.qApp + multiset{d}
    requires pLocal + pApp + qLocal + qApp == Held(c)
    ensures ChannelInv(c.(pLocal := pLocal, pApp := pApp, qLocal := qLocal, qApp := qApp))
  {
    var c' := c.(pLocal := pLocal, pApp := pApp, qLocal := qLocal, qApp := qApp);
    MoveStash(c, d, c');
    MoveTotal(c, c');
    hide DescOk, Stashed, Fifo, Conserved, LensOk, LaneInv, LaneLens;
    FrameDesc(c, c');
    FrameFifo(c, c');
    FrameConserved(c, c');
    LensParts(c);
    FrameLens(c, c');
  }

  lemma MoveTotal(c: Channel, c': Channel)
    requires c'.data == c.data && c'.free == c.free && Held(c') == Held(c)
    ensures Total(c') == Total(c)
  {
  }

  lemma MoveStash(c: Channel, d: nat, c': Channel)
    requires Stashed(c) && HasBuffer(c, d) && BufferOf(c, d).idx == d
    requires c'.desc == c.desc && c'.mem == c.mem
    requires c'.pApp == c.pApp || c'.pApp == c.pApp + multiset{d}
    requires c'.qApp == c.qApp || c'.qApp == c.qApp + multiset{d}
    ensures Stashed(c')
  {
  }

  lemma HeaderKeeps(c: Channel, d: nat, src: u32, dst: u32, size: nat, flags: nat)
    requires ChannelInv(c) && (d in c.pLocal || d in c.pApp) && size <= c.cfg.payloadSize
    ensures ChannelInv(DoHeader(c, d, src, dst, size, flags))
  {
    hide ChannelInv;
    HeldBuffer(c, d);
    OnePlace(c, d);
    AppNames(c, d);
    Sizes(c);
    SetBufferKeeps(c, d, BufferOf(c, d).(src := src, dst := dst, len := size % U16, flags := flags % U16));
  }

  lemma Sizes(c: Channel)
    requires ChannelInv(c)
    ensures c.cfg.payloadSize <= Capacity(c.cfg)
  {
  }

  lemma AppNames(c: Channel, d: nat)
    requires ChannelInv(c)
    ensures d in c.pApp || d in c.qApp ==> BufferOf(c, d).idx == d
  {
  }

  lemma CopyKeeps(c: Channel, d: nat, bytes: seq<u8>)
    requires ChannelInv(c) && d in c.pLocal && |bytes| <= c.cfg.payloadSize
    ensures ChannelInv(DoCopy(c, d, bytes))
  {
    HeldBuffer(c, d);
    OnePlace(c, d);
    var b := BufferOf(c, d);
    assert |bytes| <= |b.payload|;
    SetBufferKeeps(c, d, b.(payload := bytes + b.payload[|bytes|..]));
  }

  lemma AppWriteKeeps(c: Channel, d: nat, payload: seq<u8>)
    requires ChannelInv(c) && d in c.pApp && |payload| == Capacity(c.cfg)
    ensures ChannelInv(DoAppWrite(c, d, payload))
  {
    HeldBuffer(c, d);
    AppNames(c, d);
    SetBufferKeeps(c, d, BufferOf(c, d).(payload := payload));
  }

  // ---- lanes and descriptors

  lemma PopIds(p: seq<Slot>)
    requires p != []
    ensures multiset(Ids(p)) == multiset(Ids(p[1..])) + multiset{p[0].id}
  {
    assert p == [p[0]] + p[1..];
    Ids2([p[0]], p[1..]);
    assert Ids([p[0]]) == [p[0].id];
  }

  lemma PushIds(p: seq<Slot>, item: Slot)
    ensures multiset(Ids(p + [item])) == multiset(Ids(p)) + multiset{item.id}
  {
    Ids2(p, [item]);
    assert Ids([item]) == [item.id];
  }

  /** A reader's step leaves the writer and the shared memory alone. */
  lemma ReadFrame(l: Lane, r: ReaderStep)
    requires CanRead(l.ring, r)
    ensures var l' := Read(l, r);
            l'.ring == l.ring.(cursor := l'.ring.cursor, reader := l'.ring.reader) && l'.log == l.log
  {
  }

  /** A writer's step leaves the reader and its cursor alone. */
  lemma WriteFrame(l: Lane, w: WriterStep)
    requires CanWrite(l.ring, w)
    ensures var l' := Write(l, w);
            && l'.ring == l.ring.(slots := l'.ring.slots, idx := l'.ring.idx, writer := l'.ring.writer)
            && l'.taken == l.taken
  {
  }

  lemma PlaceFrame(l: Lane, item: Slot)
    requires CanWrite(l.ring, Place(item))
    ensures var l' := Write(l, Place(item));
            && l'.log == l.log && l'.taken == l.taken && l'.ring.n == l.ring.n && l'.ring.kind == l.ring.kind
            && l'.ring.writer.WPlaced? && l'.ring.writer.item == item
  {
  }

  lemma ReadIds(l: Lane, r: ReaderStep)
    requires LaneInv(l) && CanRead(l.ring, r)
    ensures LaneIds(l) == LaneIds(Read(l, r)) + (if r.Take? then multiset{l.ring.reader.item.id} else multiset{})
  {
    PendingAfterRead(l, r);
    ReadFrame(l, r);
    hide LaneInv, Read, ReadStep, Pending, Ids;
    if r.Take? { PopIds(Pending(l)); }
  }

  lemma PlaceIds(l: Lane, item: Slot)
    requires LaneInv(l) && CanWrite(l.ring, Place(item))
    ensures LaneIds(Write(l, Place(item))) == LaneIds(l) + multiset{item.id}
  {
    PendingAfterWrite(l, Place(item));
  }

  lemma WriteIds(l: Lane, w: WriterStep)
    requires LaneInv(l) && CanWrite(l.ring, w) && !w.Place?
    ensures LaneIds(Write(l, w)) == LaneIds(l)
  {
    PendingAfterWrite(l, w);
    if w.Publish? { PushIds(Pending(l), l.ring.writer.item); }
  }

  lemma ReadLens(l: Lane, r: ReaderStep, len: nat)
    requires LaneInv(l) && CanRead(l.ring, r) && LaneLens(l, len)
    ensures LaneLens(Read(l, r), len)
    ensures r.Take? ==> l.ring.reader.item.len == ItemLen(l.ring.kind, len)
  {
    ReadFrame(l, r);
  }

  lemma WriteLens(l: Lane, w: WriterStep, len: nat)
    requires LaneInv(l) && CanWrite(l.ring, w) && LaneLens(l, len)
    requires w.Place? ==> w.item.len == ItemLen(l.ring.kind, len)
    ensures LaneLens(Write(l, w), len)
  {
  }

  /** The length reported with any taken entry is RL_BUFFER_SIZE. */
  lemma TakenLenIsBufferSize(c: Channel, l: Lane)
    requires ChannelInv(c) && (l == c.data || l == c.free) && l.ring.reader.RHas?
    ensures TakenLen(c, l) == c.cfg.bufferSize
  {
    hide Conserved, Stashed, Fifo, LaneInv;
    BothLanes(c);
    HasOldest(l);
    PendingInTotal(c, l, l.taken);
  }

  lemma HasOldest(l: Lane)
    requires LaneInv(l) && l.ring.reader.RHas?
    ensures l.taken < |l.log| && l.ring.reader.item == l.log[l.taken]
  {
  }

  // ---- producer: lane steps

  lemma AllocKeeps(c: Channel, r: ReaderStep)
    requires ChannelInv(c) && CanRead(c.free.ring, r)
    ensures ChannelInv(DoAlloc(c, r))
  {
    hide DescOk, Stashed, Fifo, Conserved, LensOk, LaneInv, Read, ReadStep, CanRead, TakenLen;
    var c' := DoAlloc(c, r);
    ReadKeeps(c.free, r);
    ReadFrame(c.free, r);
    AllocLens(c, r);
    AllocTotal(c, r);
    FrameDesc(c, c');
    FrameFifo(c, c');
    FrameStash(c, c');
    FrameConserved(c, c');
  }

  lemma AllocLens(c: Channel, r: ReaderStep)
    requires ChannelInv(c) && CanRead(c.free.ring, r)
    ensures LensOk(DoAlloc(c, r))
  {
    hide LanesOk, DescOk, Conserved, LensOk, Stashed, Fifo, Read, CanRead, LaneLens, LaneInv, TakenLen;
    LensParts(c);
    BothLanes(c);
    CanTake(c.free, r);
    ReadLens(c.free, r, c.cfg.bufferSize);
    if r.Take? {
      TakenLenIsBufferSize(c, c.free);
      TakeLensP(c, DoAlloc(c, r), c.free.ring.reader.item.id);
    } else {
      FrameLens(c, DoAlloc(c, r));
    }
  }

  lemma TakeLensP(c: Channel, c': Channel, d: nat)
    requires LensOk(c) && c'.cfg == c.cfg
    requires LaneLens(c'.data, c.cfg.bufferSize) && LaneLens(c'.free, c.cfg.bufferSize)
    requires c'.pLocal == c.pLocal + multiset{d} && c'.pLen == c.pLen[d := c.cfg.bufferSize]
    requires c'.qLocal == c.qLocal && c'.qLen == c.qLen
    ensures LensOk(c')
  {
  }

  lemma TakeLensQ(c: Channel, c': Channel, d: nat)
    requires LensOk(c) && c'.cfg == c.cfg
    requires LaneLens(c'.data, c.cfg.bufferSize) && LaneLens(c'.free, c.cfg.bufferSize)
    requires c'.qLocal == c.qLocal + multiset{d} && c'.qLen == c.qLen[d := c.cfg.bufferSize]
    requires c'.pLocal == c.pLocal && c'.pLen == c.pLen
    ensures LensOk(c')
  {
  }

  lemma AllocTotal(c: Channel, r: ReaderStep)
    requires LaneInv(c.free) && CanRead(c.free.ring, r)
    ensures Total(DoAlloc(c, r)) == Total(c)
  {
    hide LaneInv, LaneIds, Read, CanRead, TakenLen;
    ReadIds(c.free, r);
  }

  /** A held descriptor that moves into a lane write stays in one place. */
  lemma PlacedTotal(c: Channel, c': Channel, d: nat)
    requires Held(c) == Held(c') + multiset{d}
    requires || (LaneIds(c'.data) == LaneIds(c.data) + multiset{d} && c'.free == c.free)
             || (LaneIds(c'.free) == LaneIds(c.free) + multiset{d} && c'.data == c.data)
    ensures Total(c') == Total(c)
  {
    hide LaneIds, Held;
  }

  /** Starting to publish a descriptor that the producer holds. */
  lemma SendPlaces(c: Channel, d: nat, pLocal: multiset<nat>, pApp: multiset<nat>)
    requires ChannelInv(c) && d in Held(c) && c.data.ring.writer.WIdle?
    requires pLocal <= c.pLocal && pApp <= c.pApp
    requires pLocal + pApp + multiset{d} == c.pLocal + c.pApp
    ensures CanWrite(c.data.ring, Place(Slot(0, 0)))
    ensures var item := MakeItem(c.data.ring.kind, d, c.cfg.bufferSize);
            ChannelInv(c.(data := Write(c.data, Place(item)), pLocal := pLocal, pApp := pApp))
  {
    hide DescOk, Stashed, Fifo, Conserved, LensOk, LaneInv, LaneLens, LaneIds, Write, CanWrite;
    var item := MakeItem(c.data.ring.kind, d, c.cfg.bufferSize);
    CanPlace(c.data);
    HolderHasCredit(c, d);
    PlaceKeeps(c.data, item);
    PlaceIds(c.data, item);
    LensParts(c);
    WriteLens(c.data, Place(item), c.cfg.bufferSize);
    PlaceFrame(c.data, item);
    var c' := c.(data := Write(c.data, Place(item)), pLocal := pLocal, pApp := pApp);
    PlacedTotal(c, c', d);
    FrameDesc(c, c');
    FrameFifo(c, c');
    FrameStash(c, c');
    FrameConserved(c, c');
    FrameLens(c, c');
  }

  lemma SendKeeps(c: Channel, d: nat)
    requires ChannelInv(c) && d in c.pLocal && CanWrite(c.data.ring, Place(Slot(0, 0)))
    ensures ChannelInv(DoSend(c, d))
  {
    assert Lookup(c.pLen, d) == c.cfg.bufferSize;
    hide ChannelInv, Write, Lookup;
    SendPlaces(c, d, c.pLocal - multiset{d}, c.pApp);
  }

  /** The index that send_nocopy finds in the header is the descriptor of the buffer. */
  lemma SendNoCopyKeeps(c: Channel, d: nat)
    requires ChannelInv(c) && d in c.pApp && CanWrite(c.data.ring, Place(Slot(0, 0)))
    ensures ChannelInv(DoSendNoCopy(c, d))
  {
    hide LaneInv, Stashed, Fifo, LensOk;
    HeldBuffer(c, d);
    AppNames(c, d);
    assert DescLen(c, d) == c.cfg.bufferSize;
    hide ChannelInv, Write, DescLen;
    SendPlaces(c, d, c.pLocal, c.pApp - multiset{d});
  }

  lemma DataWriteKeeps(c: Channel, w: WriterStep)
    requires ChannelInv(c) && CanWrite(c.data.ring, w) && !w.Place?
    ensures ChannelInv(DoDataWrite(c, w))
  {
    hide DescOk, Stashed, Fifo, Conserved, LensOk, LaneInv, LaneLens, LaneIds, Write, CanWrite;
    var c' := DoDataWrite(c, w);
    WriteKeeps(c.data, w);
    WriteIds(c.data, w);
    LensParts(c);
    WriteLens(c.data, w, c.cfg.bufferSize);
    WriteFrame(c.data, w);
    DataWriteFifo(c, w);
    assert Total(c') == Total(c);
    FrameDesc(c, c');
    FrameStash(c, c');
    FrameConserved(c, c');
    FrameLens(c, c');
  }

  /** What is published is recorded as sent while it is still in its buffer. */
  lemma DataWriteFifo(c: Channel, w: WriterStep)
    requires ChannelInv(c) && CanWrite(c.data.ring, w) && !w.Place?
    ensures Fifo(DoDataWrite(c, w))
  {
    var c' := DoDataWrite(c, w);
    if w.Publish? {
      var item := c.data.ring.writer.item;
      assert item.id in Total(c);
      EverywhereInTable(c, item.id);
      assert HasBuffer(c, item.id);
      assert c'.data.log == c.data.log + [item] && c'.data.taken == c.data.taken;
      hide LaneInv, Write, CanWrite, Conserved, LensOk, Stashed, LanesOk;
      FifoPush(c, c', item);
    } else {
      assert c'.data.log == c.data.log && c'.data.taken == c.data.taken;
      hide LaneInv, Write, CanWrite, Conserved, LensOk, Stashed, LanesOk, DescOk;
      FrameFifo(c, c');
    }
  }

  lemma FifoPush(c: Channel, c': Channel, item: Slot)
    requires Fifo(c) && HasBuffer(c, item.id) && c'.desc == c.desc && c'.mem == c.mem
    requires c'.data.log == c.data.log + [item] && c'.data.taken == c.data.taken
    requires c'.sent == c.sent + [View(BufferOf(c, item.id))] && c'.delivered == c.delivered
    ensures Fifo(c')
  {
  }

  // ---- consumer: lane steps

  lemma ReceiveKeeps(c: Channel, r: ReaderStep)
    requires ChannelInv(c) && CanRead(c.data.ring, r)
    ensures ChannelInv(DoReceive(c, r))
  {
    hide DescOk, Stashed, Fifo, Conserved, LensOk, LaneInv, Read, ReadStep, CanRead, TakenLen;
    var c' := DoReceive(c, r);
    ReadKeeps(c.data, r);
    ReadFrame(c.data, r);
    ReceiveLens(c, r);
    ReceiveTotal(c, r);
    ReceiveFifo(c, r);
    FrameDesc(c, c');
    FrameStash(c, c');
    FrameConserved(c, c');
  }

  lemma ReceiveLens(c: Channel, r: ReaderStep)
    requires ChannelInv(c) && CanRead(c.data.ring, r)
    ensures LensOk(DoReceive(c, r))
  {
    hide LanesOk, DescOk, Conserved, LensOk, Stashed, Fifo, Read, CanRead, LaneLens, LaneInv, TakenLen;
    LensParts(c);
    BothLanes(c);
    CanTake(c.data, r);
    ReadLens(c.data, r, c.cfg.bufferSize);
    if r.Take? {
      TakenLenIsBufferSize(c, c.data);
      TakeLensQ(c, DoReceive(c, r), c.data.ring.reader.item.id);
    } else {
      FrameLens(c, DoReceive(c, r));
    }
  }

  lemma ReceiveTotal(c: Channel, r: ReaderStep)
    requires LaneInv(c.data) && CanRead(c.data.ring, r)
    ensures Total(DoReceive(c, r)) == Total(c)
  {
    hide LaneInv, LaneIds, Read, CanRead, TakenLen, View, BufferOf;
    ReadIds(c.data, r);
  }

  /** What is taken is the next message that was sent, unchanged. */
  lemma ReceiveFifo(c: Channel, r: ReaderStep)
    requires ChannelInv(c) && CanRead(c.data.ring, r)
    ensures Fifo(DoReceive(c, r))
  {
    var c' := DoReceive(c, r);
    ReadFrame(c.data, r);
    if r.Take? {
      var t := c.data.taken;
      assert t < |c.data.log| && c.data.ring.reader.item == c.data.log[t];
      assert c'.data.taken == t + 1;
      hide LaneInv, Read, CanRead, Conserved, LensOk, Stashed, LanesOk, DescOk, TakenLen;
      FifoPop(c, c');
    } else {
      assert c'.data.taken == c.data.taken;
      hide LaneInv, Read, CanRead, Conserved, LensOk, Stashed, LanesOk, DescOk, TakenLen;
      FrameFifo(c, c');
    }
  }

  lemma FifoPop(c: Channel, c': Channel)
    requires Fifo(c) && c.data.taken < |c.data.log| && c'.desc == c.desc && c'.mem == c.mem
    requires c'.data.log == c.data.log && c'.data.taken == c.data.taken + 1 && c'.sent == c.sent
    requires c'.delivered == c.delivered + [View(BufferOf(c, c.data.log[c.data.taken].id))]
    ensures Fifo(c')
  {
    var t := c.data.taken;
    assert c.sent[..t + 1] == c.sent[..t] + [c.sent[t]];
  }

  /** Starting to give back a descriptor that the consumer holds. */
  lemma FreePlaces(c: Channel, d: nat, qLocal: multiset<nat>, qApp: multiset<nat>)
    requires ChannelInv(c) && d in Held(c) && c.free.ring.writer.WIdle?
    requires qLocal <= c.qLocal && qApp <= c.qApp
    requires qLocal + qApp + multiset{d} == c.qLocal + c.qApp
    ensures CanWrite(c.free.ring, Place(Slot(0, 0)))
    ensures var item := MakeItem(c.free.ring.kind, d, c.cfg.bufferSize);
            var c' := c.(free := Write(c.free, Place(item)), qLocal := qLocal, qApp := qApp);
            ChannelInv(c') && d in WriterIds(c'.free)
  {
    hide DescOk, Stashed, Fifo, Conserved, LensOk, LaneInv, LaneLens, LaneIds, Write, CanWrite;
    var item := MakeItem(c.free.ring.kind, d, c.cfg.bufferSize);
    CanPlace(c.free);
    HolderHasCredit(c, d);
    PlaceKeeps(c.free, item);
    PlaceIds(c.free, item);
    LensParts(c);
    WriteLens(c.free, Place(item), c.cfg.bufferSize);
    PlaceFrame(c.free, item);
    var c' := c.(free := Write(c.free, Place(item)), qLocal := qLocal, qApp := qApp);
    assert Held(c) == c.pLocal + c.pApp + (c.qLocal + c.qApp);
    assert Held(c') == c.pLocal + c.pApp + (qLocal + qApp);
    PlacedTotal(c, c', d);
    FrameDesc(c, c');
    FrameFifo(c, c');
    FrameStash(c, c');
    FrameConserved(c, c');
    FrameLens(c, c');
  }

  lemma FreeWriteKeeps(c: Channel, w: WriterStep)
    requires ChannelInv(c) && CanWrite(c.free.ring, w) && !w.Place?
    ensures ChannelInv(DoFreeWrite(c, w))
  {
    hide DescOk, Stashed, Fifo, Conserved, LensOk, LaneInv, LaneLens, LaneIds, Write, CanWrite;
    var c' := DoFreeWrite(c, w);
    WriteKeeps(c.free, w);
    WriteIds(c.free, w);
    LensParts(c);
    WriteLens(c.free, w, c.cfg.bufferSize);
    WriteFrame(c.free, w);
    assert Total(c') == Total(c);
    FrameDesc(c, c');
    FrameFifo(c, c');
    FrameStash(c, c');
    FrameConserved(c, c');
    FrameLens(c, c');
  }

  lemma ClearedKeeps(c: Channel, d: nat)
    requires ChannelInv(c) && d in WriterIds(c.free)
    ensures ChannelInv(Cleared(c, d))
  {
    BeingFreed(c, d);
    assert BufferOk(c.cfg, Zeroed(c.cfg));
    hide ChannelInv;
    SetBufferKeeps(c, d, Zeroed(c.cfg));
  }

  /** A descriptor on its way back is neither pending nor with an application. */
  lemma BeingFreed(c: Channel, d: nat)
    requires ChannelInv(c) && d in WriterIds(c.free)
    ensures NotPending(c, d) && d !in c.pApp && d !in c.qApp
    ensures HEADER_SIZE <= c.cfg.bufferSize
  {
    assert Total(c)[d] <= 1;
    forall k | c.data.taken <= k < |c.data.log| ensures c.data.log[k].id != d {
      PendingInTotal(c, c.data, k);
    }
  }

  lemma QLength(c: Channel, d: nat)
    requires ChannelInv(c) && d in c.qLocal
    ensures Lookup(c.qLen, d) == c.cfg.bufferSize
  {
  }

  lemma FreeKeeps(c: Channel, d: nat)
    requires ChannelInv(c) && d in c.qLocal && CanWrite(c.free.ring, Place(Slot(0, 0)))
    ensures ChannelInv(DoFree(c, d))
  {
    hide ChannelInv, Write, Lookup, Cleared;
    QLength(c, d);
    FreePlaces(c, d, c.qLocal - multiset{d}, c.qApp);
    ClearedKeeps(c.(free := Write(c.free, Place(MakeItem(c.free.ring.kind, d, c.cfg.bufferSize))),
                    qLocal := c.qLocal - multiset{d}), d);
  }

  /** The index that release_rx_buffer finds in the header is the descriptor of the buffer. */
  lemma ReleaseKeeps(c: Channel, d: nat)
    requires ChannelInv(c) && d in c.qApp && CanWrite(c.free.ring, Place(Slot(0, 0)))
    ensures ChannelInv(DoRelease(c, d))
  {
    hide LaneInv, Stashed, Fifo, LensOk;
    HeldBuffer(c, d);
    AppNames(c, d);
    assert DescLen(c, d) == c.cfg.bufferSize;
    hide ChannelInv, Write, DescLen, Cleared, CanWrite;
    CanPlaceAny(c.free.ring, Slot(0, 0));
    FreePlaces(c, d, c.qLocal, c.qApp - multiset{d});
    ClearedKeeps(c.(free := Write(c.free, Place(MakeItem(c.free.ring.kind, d, c.cfg.bufferSize))),
                    qApp := c.qApp - multiset{d}), d);
  }

  // ---- seeding

  lemma SeedKeeps(c: Channel, a: nat)
    requires ChannelInv(c) && CanSeed(c, a)
    ensures ChannelInv(DoSeed(c, a))
  {
    SeedLane(c, a);
    SeedDesc(c, a);
    SeedApps(c, a);
    SeedFifo(c, a);
    SeedLens(c, a);
  }

  lemma SeedLane(c: Channel, a: nat)
    requires ChannelInv(c) && CanSeed(c, a)
    ensures var c' := DoSeed(c, a); LanesOk(c') && Conserved(c')
  {
    hide LaneInv, LaneIds, Write, CanWrite, Stashed, Fifo, LensOk, DescOk, AllIds;
    var item := MakeItem(c.free.ring.kind, |c.desc|, c.cfg.bufferSize);
    SeedCredit(c);
    CanPlaceAny(c.free.ring, Slot(0, 0));
    PlaceKeeps(c.free, item);
    PlaceIds(c.free, item);
    PlaceFrame(c.free, item);
    NextId(|c.desc|);
    assert Total(DoSeed(c, a)) == Total(c) + multiset{|c.desc|};
  }

  lemma NextId(m: nat)
    ensures AllIds(m + 1) == AllIds(m) + multiset{m}
  {
  }

  /** While descriptors are left to set up, fewer than n are pending. */
  lemma SeedCredit(c: Channel)
    requires LanesOk(c) && Conserved(c) && |c.desc| < c.cfg.n
    ensures |c.free.log| < c.free.taken + c.cfg.n
  {
    assert |Total(c)| == |c.desc|;
    assert |PendingIds(c.free)| == |Pending(c.free)|;
  }

  lemma SeedLens(c: Channel, a: nat)
    requires ChannelInv(c) && CanSeed(c, a)
    ensures LensOk(DoSeed(c, a))
  {
    hide LaneInv, LaneLens, Write, CanWrite, Conserved, Stashed, Fifo, DescOk;
    var item := MakeItem(c.free.ring.kind, |c.desc|, c.cfg.bufferSize);
    LensParts(c);
    CanPlaceAny(c.free.ring, Slot(0, 0));
    WriteLens(c.free, Place(item), c.cfg.bufferSize);
    hide LensOk;
    FrameLens(c, DoSeed(c, a));
  }

  lemma SeedDesc(c: Channel, a: nat)
    requires ChannelInv(c) && CanSeed(c, a)
    ensures DescOk(DoSeed(c, a))
  {
    hide LaneInv, LensOk, Fifo, Stashed, Conserved, RingSize;
    assert BufferOk(c.cfg, Zeroed(c.cfg));
    hide LanesOk;
    var m := c.desc + [Desc(a, c.cfg.bufferSize)];
    assert DoSeed(c, a).desc == m;
  }

  /** Descriptors set up earlier keep their buffers. */
  lemma SeedFrame(c: Channel, a: nat, e: nat)
    requires DescOk(c) && CanSeed(c, a) && e < |c.desc|
    ensures var c' := DoSeed(c, a); HasBuffer(c', e) && HasBuffer(c, e) && BufferOf(c', e) == BufferOf(c, e)
  {
    assert DoSeed(c, a).desc[e] == c.desc[e];
  }

  lemma SeedApps(c: Channel, a: nat)
    requires ChannelInv(c) && CanSeed(c, a)
    ensures Stashed(DoSeed(c, a))
  {
    hide LaneInv, LanesOk, LensOk, Fifo, Write, CanWrite;
    forall e | e in c.pApp || e in c.qApp
      ensures var c' := DoSeed(c, a); HasBuffer(c', e) && BufferOf(c', e).idx == e
    {
      assert e in Total(c);
      EverywhereInTable(c, e);
      SeedFrame(c, a, e);
    }
  }

  lemma SeedFifo(c: Channel, a: nat)
    requires ChannelInv(c) && CanSeed(c, a)
    ensures Fifo(DoSeed(c, a))
  {
    hide LaneInv, LensOk, Stashed, Write, CanWrite;
    var c' := DoSeed(c, a);
    forall k | c.data.taken <= k < |c.data.log|
      ensures HasBuffer(c', c.data.log[k].id) && View(BufferOf(c', c.data.log[k].id)) == c.sent[k]
    {
      PendingInTotal(c, c.data, k);
      SeedFrame(c, a, c.data.log[k].id);
    }
  }

  /** Every step of either core keeps the channel invariant. */
  lemma StepKeeps(c: Channel, s: Step)
    requires ChannelInv(c) && Enabled(c, s)
    ensures ChannelInv(Apply(c, s))
  {
    hide ChannelInv, CanRead, CanWrite, CanSeed;
    match s {
      case Alloc(r) => AllocKeeps(c, r);
      case HandOut(d) => HandOutKeeps(c, d);
      case Header(d, src, dst, size, flags) => HeaderKeeps(c, d, src, dst, size, flags);
      case Copy(d, bytes) => CopyKeeps(c, d, bytes);
      case AppWrite(d, payload) => AppWriteKeeps(c, d, payload);
      case Send(d) => SendKeeps(c, d);
      case SendNoCopy(d) => SendNoCopyKeeps(c, d);
      case DataWrite(w) => DataWriteKeeps(c, w);
      case Receive(r) => ReceiveKeeps(c, r);
      case Hold(d) => HoldKeeps(c, d);
      case Free(d) => FreeKeeps(c, d);
      case Release(d) => ReleaseKeeps(c, d);
      case FreeWrite(w) => FreeWriteKeeps(c, w);
      case Seed(a) => SeedKeeps(c, a);
    }
  }
}
