/** The part of `rpmsg_lite_master_init` that lays out the buffers and seeds both vrings, in place.
 */
module MasterInit {
  import opened Words
  import opened Lanes
  import opened Channels
  import opened ChannelSteps
  import opened Calls
  import opened Virtqueues
  import opened VringLayout
  import opened Pool

  /** The entries that seeding publishes: descriptor indexes in order. */
  function Entries(kind: Kind, len: nat, k: nat): (s: seq<Slot>)
    ensures |s| == k && forall i | 0 <= i < k :: s[i] == MakeItem(kind, i, len)
  {
    seq(k, i requires 0 <= i < k => MakeItem(kind, i, len))
  }

  lemma NextEntry(kind: Kind, len: nat, k: nat)
    ensures Entries(kind, len, k + 1) == Entries(kind, len, k) + [MakeItem(kind, k, len)]
  {
  }

  /** The first k descriptors point to the buffers from number first on. */
  ghost predicate Table(t: seq<Desc>, base: nat, bufferSize: nat, first: nat, k: nat) {
    k <= |t| && forall i | 0 <= i < k :: t[i] == Desc(BufferAddr(base, bufferSize, first + i), bufferSize)
  }

  lemma TableNext(t: seq<Desc>, base: nat, bufferSize: nat, first: nat, k: nat)
    requires Table(t, base, bufferSize, first, k) && k < |t|
    ensures Table(t[k := Desc(BufferAddr(base, bufferSize, first + k), bufferSize)], base, bufferSize, first, k + 1)
  {
    hide BufferAddr;
  }

  /** A lane on which k entries have been published, and perhaps some taken by the peer. */
  ghost predicate SeededTo(l: Lane, len: nat, k: nat) {
    l.ring.writer.WIdle? && l.log == Entries(l.ring.kind, len, k)
  }

  lemma NoWrap(f: nat, i: nat, j: nat)
    requires i <= j && f * j < U32
    ensures (f * i) % U32 == f * i
  {
    MulMonotone(f, i, j);
  }

  /** What the shared memory holds of a used ring before the master starts. */
  datatype Before = Before(flags: u16, idx: u16, slots: seq<Slot>)

  /** A vring and its queue: memset, `virtqueue_create` and `virtqueue_disable_cb`. The table and the
      avail ring are cleared, the used ring as far as the memset reaches. */
  method NewQueue(n: u16, was: Before, reach: Reach) returns (vq: Virtqueue)
    requires RingSize(n) && |was.slots| == n
    ensures fresh(vq) && fresh(vq.desc) && fresh(vq.avail) && fresh(vq.avail.ring)
    ensures fresh(vq.used) && fresh(vq.used.ring)
    ensures vq.used.ring as object !in {vq.avail.ring as object, vq.desc as object}
    ensures vq.nentries == n == vq.desc.Length == vq.avail.ring.Length == vq.used.ring.Length
    ensures vq.avail.Valid() && vq.avail.lane == EmptyLane(Avail, n) && vq.descHeadIdx == 0
    ensures vq.used.flags == (if reach.flags then 0 else was.flags)
    ensures vq.used.idx == (if reach.idx then 0 else was.idx)
    ensures vq.used.ring[..] == Kept(was.slots, reach.entries)
    ensures FreshLane(vq.used.lane, Used, n) && (vq.used.Valid() <==> vq.used.clean)
    ensures (vq.used.clean <==> vq.used.idx == 0) && vq.told == []
  {
    hide AvailImage, UsedImage, LaneInv;
    var desc := new Desc[n](i => Desc(0, 0));
    var avail := new AvailRing(n, false);
    var used := new UsedRing(n, if reach.flags then 0 else was.flags, if reach.idx then 0 else was.idx,
                             Kept(was.slots, reach.entries), false);
    vq := new Virtqueue(n, desc, avail, used);
    vq.DisableCb();
  }

  /** k entries have been written to a used ring, from the slot of index start on. */
  predicate Entered(s: seq<Slot>, start: nat, len: nat, k: nat)
  {
    |s| > 0 && forall i: nat | i < k :: s[(start + i) % |s|] == Slot(i, len)
  }

  lemma EnteredNext(s: seq<Slot>, start: u16, len: nat, k: nat)
    requires RingSize(|s|) && k < |s| && Entered(s, start, len, k)
    ensures var idx := (start + k) % U16;
            && Inc16(idx) == (start + k + 1) % U16 && Masked(idx, |s|) < |s|
            && Entered(s[Masked(idx, |s|) := Slot(k, len)], start, len, k + 1)
  {
    var n, idx := |s|, (start + k) % U16;
    MaskedCounter(start + k, n);
    WrapSucc(start + k);
    var t := s[Masked(idx, n) := Slot(k, len)];
    forall i: nat | i < k + 1 ensures t[(start + i) % n] == Slot(i, len) {
      if i < k && (start + i) % n == (start + k) % n { ModDistinct(start + k, start + i, n); }
    }
  }

  /** What an index that was not cleared does to a pool: the reader, who counts from 0, is offered more
      entries than there are, and gets one of the descriptors a second time before any is returned. */
  lemma StaleIndexOffersTwice(s: seq<Slot>, start: u16, len: nat)
    requires RingSize(|s|) && Entered(s, start, len, |s|) && start != 0 && start + |s| < U16
    ensures var n, idx := |s|, (start + |s|) % U16;
            n < idx && exists d: nat :: d < n && s[Masked(0, n)] == Slot(d, len) == s[Masked(n, n)]
  {
    hide Masked, IsPow2;
    var n := |s|;
    MaskedCounter(0, n);
    MaskedCounter(n, n);
    WrapsTo(n);
    var d := FirstSlot(start, n);
    assert s[(start + d) % n] == Slot(d, len);
  }

  lemma WrapsTo(n: nat)
    requires 0 < n
    ensures 0 % n == 0 && n % n == 0 && (n < U16 ==> n % U16 == n)
  {
    DivModUnique(0, n, 0, 0);
    DivModUnique(n, n, 1, 0);
  }

  lemma FirstSlot(start: nat, n: nat) returns (d: nat)
    requires 0 < n
    ensures d < n && (start + d) % n == 0
  {
    DivMod(start, n);
    var r, q := start % n, start / n;
    if r == 0 {
      d := 0;
    } else {
      d := n - r;
      assert n * (q + 1) == n * q + n;
      DivModUnique(start + d, n, q + 1, 0);
    }
  }

  /** What the environment grants: the instance, its own init, the two queues, the mutex. */
  datatype Granted = Granted(instance: bool, env: bool, rvq: bool, tvq: bool, mutex: bool)

  /** The fields of `struct rpmsg_lite_instance` that the init function uses. */
  class Master {
    const linkId: u32
    const region: Region
    const rvq: Virtqueue
    const tvq: Virtqueue
    const bufferSize: u32
    const start: u16  // the index of the transmit queue's used ring after clearing
    var shMemBase: u32
    var shMemRemaining: u32
    var shMemTotal: u32
    var linkState: u32

    constructor (linkId: u32, region: Region, rvq: Virtqueue, tvq: Virtqueue, bufferSize: u32, count: u32)
      ensures this.linkId == linkId && this.region == region
      ensures this.rvq == rvq && this.tvq == tvq && this.bufferSize == bufferSize && start == tvq.used.idx
      ensures shMemBase == region.pool && shMemRemaining == count && shMemTotal == count && linkState == 0
    {
      var base := region.pool;
      this.linkId, this.region, this.rvq, this.tvq, this.bufferSize := linkId, region, rvq, tvq, bufferSize;
      start := tvq.used.idx;
      shMemBase, shMemRemaining, shMemTotal, linkState := base, count, count, 0;
    }

    /** The two queues share nothing that seeding writes. */
    ghost predicate Apart() {
      && rvq != tvq && rvq.desc != tvq.desc && rvq.avail.ring as object != tvq.used.ring as object
      && rvq.used != tvq.used && rvq.used.ring != tvq.used.ring
      && rvq.used.ring as object !in {rvq.avail.ring as object, rvq.desc as object, tvq.desc as object}
      && rvq.nentries == tvq.nentries == rvq.desc.Length == tvq.desc.Length
      && rvq.nentries == rvq.avail.ring.Length == tvq.used.ring.Length
    }

    /** k buffers have been entered in the receive queue. */
    ghost predicate ReceiveSeeded(k: nat)
      reads this, rvq, rvq.desc, rvq.avail, rvq.avail.ring
    {
      && rvq.avail.Valid() && SeededTo(rvq.avail.lane, bufferSize, k)
      && rvq.descHeadIdx == k && Table(rvq.desc[..], shMemBase, bufferSize, 0, k)
    }

    /** k buffers have been entered in the transmit queue, from the index on that clearing has left;
        if that is 0, this is a lane that has been seeded. */
    ghost predicate TransmitSeeded(k: nat)
      reads this, tvq, tvq.desc, tvq.used, tvq.used.ring
    {
      && tvq.descHeadIdx == k && Table(tvq.desc[..], shMemBase, bufferSize, tvq.nentries, k)
      && tvq.used.idx == (start + k) % U16 && Entered(tvq.used.ring[..], start, bufferSize, k)
      && (tvq.used.clean <==> start == 0)
      && (start == 0 ==> tvq.used.Valid() && SeededTo(tvq.used.lane, bufferSize, k))
    }

    /** The next buffer of the pool, or none when the pool is used up. */
    method NextBuffer() returns (buffer: Option<nat>)
      requires bufferSize * shMemTotal < U32
      requires shMemRemaining <= shMemTotal
      modifies this`shMemRemaining
      ensures if old(shMemRemaining) > 0 then
                && buffer == Some(BufferAddr(shMemBase, bufferSize, shMemTotal - old(shMemRemaining)))
                && shMemRemaining == old(shMemRemaining) - 1
              else buffer.None? && shMemRemaining == 0
    {
      if shMemRemaining > 0 {
        NoWrap(bufferSize, shMemTotal - shMemRemaining, shMemTotal);
        buffer := Some(shMemBase + (bufferSize * (shMemTotal - shMemRemaining)) % U32);
        shMemRemaining := shMemRemaining - 1;
      } else {
        buffer := None;
      }
    }

    /** The inner loop's body on the receive queue, */
    method SeedReceive(buffer: nat, ghost k: nat) returns (status: int)
      requires Apart() && k < rvq.nentries && ReceiveSeeded(k)
      requires buffer == BufferAddr(shMemBase, bufferSize, k)
      modifies rvq`queuedCnt, rvq`descHeadIdx, rvq.desc, rvq.avail`lane, rvq.avail`idx, rvq.avail.ring
      ensures status == VQUEUE_SUCCESS && ReceiveSeeded(k + 1)
    {
      hide AvailImage, LaneInv, Run, ReaderPart;
      AvailCredit(rvq.avail.lane, rvq.avail.ring[..], rvq.avail.idx, bufferSize, k);
      NextEntry(Avail, bufferSize, k);
      ghost var vs;
      status, vs := rvq.FillAvailBuffers(buffer, bufferSize);
      AvailKind(rvq.avail.lane, rvq.avail.ring[..], rvq.avail.idx);
    }

    /** and on the transmit queue. */
    method SeedTransmit(buffer: nat, ghost k: nat) returns (status: int)
      requires Apart() && RingSize(tvq.nentries) && k < tvq.nentries && TransmitSeeded(k)
      requires buffer == BufferAddr(shMemBase, bufferSize, tvq.nentries + k)
      modifies tvq`descHeadIdx, tvq.desc, tvq.used`lane, tvq.used`idx, tvq.used.ring
      ensures status == VQUEUE_SUCCESS && TransmitSeeded(k + 1)
    {
      hide UsedImage, LaneInv, Run, ReaderPart, RingSize, Entered, Table, BufferAddr, Masked, Inc16;
      TableNext(tvq.desc[..], shMemBase, bufferSize, tvq.nentries, k);
      if start == 0 { UsedCredit(tvq.used.lane, tvq.used.ring[..], tvq.used.idx, bufferSize, k); }
      NextEntry(Used, bufferSize, k);
      SmallIndex(tvq.nentries, k);
      EnteredNext(tvq.used.ring[..], start, bufferSize, k);
      ghost var vs;
      status, vs := tvq.FillUsedBuffers(Some(buffer), bufferSize);
      if start == 0 { UsedKind(tvq.used.lane, tvq.used.ring[..], tvq.used.idx); }
    }

    /** The nested loop: both queues get all their buffers, and the pool never runs out on the way. */
    method Carve()
      requires Apart() && RingSize(rvq.nentries) && ReceiveSeeded(0) && TransmitSeeded(0)
      requires shMemRemaining == shMemTotal && 2 * rvq.nentries <= shMemTotal && bufferSize * shMemTotal < U32
      modifies this`shMemRemaining
      modifies rvq`queuedCnt, rvq`descHeadIdx, rvq.desc, rvq.avail`lane, rvq.avail`idx, rvq.avail.ring
      modifies tvq`descHeadIdx, tvq.desc, tvq.used`lane, tvq.used`idx, tvq.used.ring
      ensures ReceiveSeeded(rvq.nentries) && TransmitSeeded(tvq.nentries)
      ensures shMemRemaining == shMemTotal - 2 * rvq.nentries
    {
      hide AvailImage, UsedImage, SeededTo, Table, Entered, RingSize;
      var j := 0;
      while j < 2
        invariant 0 <= j <= 2
        invariant shMemRemaining == shMemTotal - j * rvq.nentries
        invariant ReceiveSeeded(if j == 0 then 0 else rvq.nentries)
        invariant TransmitSeeded(if j <= 1 then 0 else tvq.nentries)
      {
        var vq := if j == 0 then rvq else tvq;
        var idx := 0;
        while idx < vq.nentries && idx < shMemTotal
          invariant 0 <= idx <= vq.nentries
          invariant shMemRemaining == shMemTotal - j * rvq.nentries - idx
          invariant ReceiveSeeded(if j == 0 then idx else rvq.nentries)
          invariant TransmitSeeded(if j == 0 then 0 else idx)
        {
          var buffer := NextBuffer();
          assert buffer.Some?;
          var status := VQUEUE_SUCCESS;
          if vq == rvq {
            status := SeedReceive(buffer.value, idx);
          } else if vq == tvq {
            status := SeedTransmit(buffer.value, idx);
          }
          assert status == VQUEUE_SUCCESS;
          idx := idx + 1;
        }
        j := j + 1;
      }
    }

    /** The end of the init function: when the peer is notified both queues are filled. */
    method Start() returns (kicked: bool)
      requires Apart() && RingSize(rvq.nentries) && ReceiveSeeded(0) && TransmitSeeded(0) && rvq.told == []
      requires shMemRemaining == shMemTotal && 2 * rvq.nentries <= shMemTotal && bufferSize * shMemTotal < U32
      modifies this`shMemRemaining, this`linkState
      modifies rvq`queuedCnt, rvq`descHeadIdx, rvq`told, rvq.desc, rvq.avail`lane, rvq.avail`idx, rvq.avail.ring
      modifies tvq`descHeadIdx, tvq.desc, tvq.used`lane, tvq.used`idx, tvq.used.ring
      ensures ReceiveSeeded(rvq.nentries) && TransmitSeeded(tvq.nentries) && linkState == 1
      ensures kicked <==> rvq.used.flags % 2 == 0
      ensures rvq.told == if kicked then [Found(rvq.nentries, (start + rvq.nentries) % U16)] else []
    {
      hide AvailImage, UsedImage, SeededTo, Table, Entered, RingSize;
      Carve();
      linkState := 1;
      SeededIndex(this, rvq.nentries);
      kicked := rvq.Kick(tvq);
    }
  }

  lemma SeededIndex(m: Master, n: u16)
    requires RingSize(n) && m.ReceiveSeeded(n)
    ensures m.rvq.avail.idx == n
  {
    hide IsPow2, WriterOk, ReaderOk;
  }

  /** The instance with its queues before the buffers are laid out. */
  method NewMaster(linkId: u32, region: Region, n: u16, bufferSize: u32, count: u32, was0: Before, was1: Before,
                   reach0: Reach, reach1: Reach)
    returns (m: Master)
    requires RingSize(n) && |was0.slots| == n == |was1.slots|
    ensures fresh(m) && fresh(m.rvq) && fresh(m.tvq) && fresh(m.rvq.desc) && fresh(m.tvq.desc)
    ensures fresh(m.rvq.avail) && fresh(m.rvq.avail.ring) && fresh(m.tvq.used) && fresh(m.tvq.used.ring)
    ensures m.Apart() && m.ReceiveSeeded(0) && m.TransmitSeeded(0) && m.rvq.nentries == n
    ensures DataRingLeft(m.rvq, n, was0, reach0) && m.rvq.told == []
    ensures m.start == (if reach1.idx then 0 else was1.idx)
    ensures m.linkId == linkId && m.region == region
    ensures m.bufferSize == bufferSize && m.shMemBase == region.pool
    ensures m.shMemRemaining == count == m.shMemTotal
  {
    hide AvailImage, UsedImage, LaneInv;
    var rvq := NewQueue(n, was0, reach0);
    var tvq := NewQueue(n, was1, reach1);
    m := new Master(linkId, region, rvq, tvq, bufferSize, count);
  }

  /** The used ring of the receive queue, on which the remote will send: what clearing has left, and if
      the index is 0 a lane at its start. */
  ghost predicate DataRingLeft(vq: Virtqueue, n: nat, was: Before, reach: Reach)
    reads vq.used, vq.used.ring
  {
    && vq.used.flags == (if reach.flags then 0 else was.flags)
    && vq.used.idx == (if reach.idx then 0 else was.idx)
    && vq.used.ring[..] == Kept(was.slots, reach.entries)
    && (vq.used.idx == 0 ==> vq.used.Valid() && FreshLane(vq.used.lane, Used, n))
  }

  /** `rpmsg_lite_master_init`. It succeeds exactly if the link number is not above the platform's highest,
      the region is not null and holds both vrings and 2n buffers, and everything is granted. Then all n
      buffers of either direction have been entered, and had been when the peer was notified. Where the
      memset does not reach the header of a used ring, seeding goes on from the index that was there, and
      a NO_NOTIFY flag that was there suppresses the kick. */
  method Init(linkId: u32, highest: u32, shmem: u32, length: u32, vringSize: u32, align: u32, n: u16,
              payloadSize: u32, was0: Before, was1: Before, granted: Granted)
    returns (r: Option<Master>, kicked: bool)
    requires RingSize(n) && RingAlign(align) && payloadSize + 16 + WORD < U32
    requires vringSize % WORD == 0 && VringSizeMacro(n, align) <= vringSize && shmem + 2 * vringSize + WORD < U32
    requires |was0.slots| == n == |was1.slots|
    ensures r.Some? <==>
            && linkId <= highest && shmem != 0 && 2 * vringSize + BufferSize(payloadSize) * (2 * n) <= length
            && granted.instance && granted.env && granted.rvq && granted.tvq && granted.mutex
    ensures r.Some? ==>
              var m, reach := r.value, RegionReach(shmem, vringSize, n, align);
              && fresh(m) && m.linkId == linkId && m.rvq.nentries == n && m.Apart()
              && m.region == Placed(shmem, vringSize)
              && m.bufferSize == BufferSize(payloadSize) && m.shMemBase == m.region.pool
              && m.ReceiveSeeded(n) && m.TransmitSeeded(n) && m.linkState == 1
              && m.start == (if reach.1.idx then 0 else was1.idx)
              && DataRingLeft(m.rvq, n, was0, reach.0)
              && (kicked <==> reach.0.flags || was0.flags % 2 == 0)
    ensures r.Some? ==>
              var m := r.value;
              && Table(m.rvq.desc[..], m.shMemBase, m.bufferSize, 0, n)
              && Table(m.tvq.desc[..], m.shMemBase, m.bufferSize, n, n)
              && m.rvq.avail.lane.log == Entries(Avail, m.bufferSize, n)
              && (shmem % WORD == 0 ==>
                    && m.shMemBase == shmem + 2 * vringSize
                    && m.shMemBase + m.bufferSize * (2 * n) <= shmem + length)
              && m.rvq.told == if kicked then [Found(n, (m.start + n) % U16)] else []
    ensures r.None? ==> !kicked
  {
    hide AvailImage, UsedImage, SeededTo, Table, BufferCount, Placed, RingSize, RegionReach, Entered, IsPow2, AlignUp,
         PoolBase;
    kicked := false;
    if linkId > highest {
      return None, kicked;
    }
    if shmem == 0 {
      return None, kicked;
    }
    var bufferSize := BufferSize(payloadSize);
    SizeFits(length, 2 * vringSize, payloadSize, n);
    if 2 * n > BufferCount(length, 2 * vringSize, bufferSize) {
      return None, kicked;
    }
    if !granted.instance {
      return None, kicked;
    }
    if !granted.env {
      return None, kicked;
    }
    if !granted.rvq || !granted.tvq {
      return None, kicked;
    }
    if !granted.mutex {
      return None, kicked;
    }
    var count := BufferCount(length, 2 * vringSize, bufferSize);
    CountIsWord(length, 2 * vringSize, bufferSize);
    var reach := RegionReach(shmem, vringSize, n, align);
    var m := NewMaster(linkId, Placed(shmem, vringSize), n, bufferSize, count, was0, was1, reach.0, reach.1);
    kicked := m.Start();
    SeededRings(m, n);
    PoolEnds(shmem, length, vringSize, bufferSize, n);
    r := Some(m);
  }

  lemma SizeFits(length: u32, overhead: u32, payloadSize: u32, n: u16)
    requires RingSize(n) && payloadSize + 16 + WORD < U32
    ensures var size := BufferSize(payloadSize);
            && 0 < n && 0 < size
            && (2 * n <= BufferCount(length, overhead, size) <==> overhead + size * (2 * n) <= length)
  {
    hide BufferCount;
    CountsWhatFits(length, overhead, BufferSize(payloadSize), 2 * n);
  }

  /** The two tables that a successful init leaves, on any stretch of memory that holds its pool: every
      buffer of either queue lies inside it, with its length, and overlaps no other of either queue. */
  lemma TablesApart(t0: seq<Desc>, t1: seq<Desc>, base: nat, size: nat, n: nat, low: nat, high: nat, i: nat, j: nat)
    requires Table(t0, base, size, 0, n) && Table(t1, base, size, n, n) && i < n && j < n
    requires low <= base && base + size * (2 * n) <= high
    ensures low <= t0[i].addr && t0[i].addr + t0[i].len <= t1[j].addr && t1[j].addr + t1[j].len <= high
    ensures i < j ==> t0[i].addr + t0[i].len <= t0[j].addr && t1[i].addr + t1[i].len <= t1[j].addr
    ensures t0[i].len == size == t1[j].len
  {
    MulMonotone(size, 0, i);
    AddrStep(base, size, i, n + j);
    AddrStep(base, size, n + j, 2 * n);
    if i < j {
      AddrStep(base, size, i, j);
      AddrStep(base, size, n + i, n + j);
    }
  }

  lemma PoolEnds(shmem: u32, length: u32, vringSize: u32, bufferSize: u32, n: u16)
    requires 0 < n && 0 < bufferSize && bufferSize % WORD == 0 && vringSize % WORD == 0
    requires shmem + 2 * vringSize + WORD < U32 && 2 * n <= BufferCount(length, 2 * vringSize, bufferSize)
    ensures shmem % WORD == 0 ==>
              var base := Placed(shmem, vringSize).pool;
              base == shmem + 2 * vringSize && base + bufferSize * (2 * n) <= shmem + length
  {
    hide BufferCount;
    if shmem % WORD == 0 { AlignedPoolFits(shmem, length, 2 * vringSize, bufferSize, 2 * n); }
  }

  lemma SeededRings(m: Master, n: u16)
    requires m.rvq.nentries == n && m.Apart() && m.ReceiveSeeded(n) && m.TransmitSeeded(n)
    ensures m.rvq.avail.lane.log == Entries(Avail, m.bufferSize, n)
    ensures Table(m.rvq.desc[..], m.shMemBase, m.bufferSize, 0, n)
    ensures Table(m.tvq.desc[..], m.shMemBase, m.bufferSize, n, n)
  {
    hide LaneInv, Entered, Table;
  }

  lemma AvailCredit(l: Lane, s: seq<u16>, idx: u16, len: nat, k: nat)
    requires AvailImage(l, s, idx) && SeededTo(l, len, k) && k < |s|
    ensures l.ring.kind.Avail? && Credit(l, Slot(k, 0)) && k < U16 - 1
  {
  }

  lemma SmallIndex(n: u16, k: nat)
    requires RingSize(n) && k < n
    ensures k < U16 - 1 && Inc16(k) == k + 1
  {
  }

  lemma UsedCredit(l: Lane, s: seq<Slot>, idx: u16, len: nat, k: nat)
    requires UsedImage(l, s, idx) && SeededTo(l, len, k) && k < |s|
    ensures l.ring.kind.Used? && Credit(l, Slot(k, len)) && k < U16 - 1
  {
  }

  // ---- what seeding establishes

  function Addresses(t: seq<Desc>): set<nat> {
    set i | 0 <= i < |t| :: t[i].addr
  }

  /** The channel that a seeded vring is: its descriptor table, zeroed buffers, the seeded lane as
      the free lane, and a data lane at its start. */
  function SeededChannel(g: Config, data: Lane, l: Lane, t: seq<Desc>): Channel
    requires HEADER_SIZE <= g.bufferSize
  {
    EmptyChannel(g, data.ring.kind).(data := data, free := l, desc := t, mem := map a | a in Addresses(t) :: Zeroed(g))
  }

  lemma {:induction false} EntriesIds(kind: Kind, len: nat, k: nat)
    ensures multiset(Ids(Entries(kind, len, k))) == AllIds(k)
  {
    if k == 0 {
      assert Ids(Entries(kind, len, 0)) == [];
    } else {
      EntriesIds(kind, len, k - 1);
      NextEntry(kind, len, k - 1);
      PushIds(Entries(kind, len, k - 1), MakeItem(kind, k - 1, len));
    }
  }

  lemma TableDistinct(t: seq<Desc>, base: nat, bufferSize: nat, first: nat, i: nat, j: nat)
    requires Table(t, base, bufferSize, first, |t|) && 0 < bufferSize && i < j < |t|
    ensures t[i].addr != t[j].addr
  {
    AddrStep(base, bufferSize, first + i, first + j);
  }

  lemma SeededDesc(g: Config, data: Lane, l: Lane, t: seq<Desc>, base: nat, first: nat)
    requires ConfigOk(g) && |t| == g.n && Table(t, base, g.bufferSize, first, g.n)
    ensures DescOk(SeededChannel(g, data, l, t))
  {
    hide LaneInv;
    var c := SeededChannel(g, data, l, t);
    forall i, j | 0 <= i < j < |t| ensures t[i].addr != t[j].addr {
      TableDistinct(t, base, g.bufferSize, first, i, j);
    }
    assert BufferOk(g, Zeroed(g));
    forall i | 0 <= i < |t| ensures c.desc[i].addr in c.mem {
      assert t[i].addr in Addresses(t);
    }
  }

  /** What Carve leaves on either queue is the state from which the channel invariant starts, with
      every descriptor offered once. */
  lemma SeededChannelInv(g: Config, data: Lane, l: Lane, t: seq<Desc>, base: nat, first: nat)
    requires ConfigOk(g) && |t| == g.n && Table(t, base, g.bufferSize, first, g.n)
    requires LaneInv(l) && l.ring.n == g.n && l.ring.kind != data.ring.kind && l.taken == 0
    requires FreshLane(data, data.ring.kind, g.n)
    requires SeededTo(l, g.bufferSize, g.n)
    ensures var c := SeededChannel(g, data, l, t); ChannelInv(c) && PendingIds(c.free) == AllIds(g.n)
  {
    hide DescOk, LaneInv, AllIds, Table, Entries;
    var c := SeededChannel(g, data, l, t);
    SeededDesc(g, data, l, t, base, first);
    FreshLaneInv(data, data.ring.kind, g.n);
    FreshLog(data, data.ring.kind, g.n);
    EntriesIds(l.ring.kind, g.bufferSize, g.n);
    assert Pending(l) == l.log;
    assert Total(c) == AllIds(g.n);
    SeededLens(l, g.bufferSize, g.n);
  }

  lemma SeededLens(l: Lane, len: nat, k: nat)
    requires SeededTo(l, len, k)
    ensures LaneLens(l, len)
  {
  }
}
