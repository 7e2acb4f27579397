/** `virtqueue.c`: the ring operations on arrays and 16-bit indexes in place, each statement paired
    with the lane step that it is.

    The two rings of a vring are objects of their own, as the two structs are in the shared memory.
    Each carries a ghost lane. Between any two accesses of a call the peer may run: the call then
    asks the ring to let it, and all the caller knows is that the lane has made some run of the
    peer's moves. On a ring marked quiet that run is empty.
 */
module Virtqueues {
  import opened Words
  import opened Lanes
  import opened Channels
  import opened Calls

  const VQUEUE_SUCCESS := 0
  const ERROR_VRING_NO_BUFF := -3007
  const NO_NOTIFY: u16 := 1        // VRING_USED_F_NO_NOTIFY
  const NO_INTERRUPT: u16 := 1     // VRING_AVAIL_F_NO_INTERRUPT

  datatype Option<T> = None | Some(value: T)

  // ---- a lane and the memory it describes

  ghost predicate AvailImage(l: Lane, s: seq<u16>, idx: u16) {
    && LaneInv(l) && l.ring.kind.Avail? && l.ring.idx == idx
    && l.ring.n == |s| && (forall i | 0 <= i < |s| :: l.ring.slots[i] == Slot(s[i], 0))
  }

  ghost predicate UsedImage(l: Lane, s: seq<Slot>, idx: u16) {
    LaneInv(l) && l.ring.kind.Used? && l.ring.idx == idx && l.ring.slots == s
  }

  /** `struct vring_avail`. */
  class AvailRing {
    var flags: u16
    var idx: u16
    const ring: array<u16>
    ghost var lane: Lane
    ghost const quiet: bool

    /** A ring that has been cleared. */
    constructor (n: u16, ghost quiet: bool)
      requires RingSize(n)
      ensures Valid() && fresh(ring) && ring.Length == n && lane == EmptyLane(Avail, n)
      ensures this.quiet == quiet && flags == 0
    {
      flags, idx := 0, 0;
      ring := new u16[n](i => 0);
      lane := EmptyLane(Avail, n);
      this.quiet := quiet;
      new;
      EmptyLaneInv(Avail, n);
    }

    ghost predicate Valid()
      reads this, ring
    {
      AvailImage(lane, ring[..], idx)
    }

    /** The reading peer runs and extends the run vs so far; none of its steps writes to the ring. */
    ghost method PeerReads(start: Lane, vs: seq<Move>) returns (us: seq<Move>)
      requires Valid() && Run(start, vs, lane)
      modifies this`lane
      ensures Valid() && Run(start, us, lane) && WriterPart(us) == WriterPart(vs)
      ensures WriterSame(old(lane), lane)
      ensures quiet ==> us == vs
    {
      us := vs;
    }

    /** The writing peer runs and extends the run vs so far. */
    method PeerWrites(ghost start: Lane, ghost vs: seq<Move>) returns (ghost us: seq<Move>)
      requires Valid() && Run(start, vs, lane)
      modifies this`lane, this`idx, ring
      ensures Valid() && Run(start, us, lane) && ReaderPart(us) == ReaderPart(vs)
      ensures ReaderSame(old(lane), lane)
      ensures quiet ==> us == vs && lane == old(lane)
    {
      us := vs;
    }
  }

  /** `struct vring_used`. */
  class UsedRing {
    var flags: u16
    var idx: u16
    const ring: array<Slot>
    ghost var lane: Lane
    ghost const quiet: bool
    ghost const clean: bool  // the index started at 0, as the lane's does

    /** A ring as clearing has left it; it is the image of a lane if its index is 0. */
    constructor (n: u16, flags: u16, idx: u16, slots: seq<Slot>, ghost quiet: bool)
      requires RingSize(n) && |slots| == n
      ensures fresh(ring) && ring.Length == n && ring[..] == slots
      ensures this.flags == flags && this.idx == idx && this.quiet == quiet
      ensures FreshLane(lane, Used, n) && (Valid() <==> clean) && (clean <==> idx == 0)
    {
      this.flags, this.idx := flags, idx;
      ring := new Slot[n](i requires 0 <= i < |slots| => slots[i]);
      var l := EmptyLane(Used, n);
      lane := l.(ring := l.ring.(slots := slots));
      this.quiet, this.clean := quiet, idx == 0;
      new;
      FreshLaneInv(lane, Used, n);
      assert ring[..] == slots;
    }

    ghost predicate Valid()
      reads this, ring
    {
      clean && UsedImage(lane, ring[..], idx)
    }

    /** The reading peer runs and extends the run vs so far; none of its steps writes to the ring. */
    ghost method PeerReads(start: Lane, vs: seq<Move>) returns (us: seq<Move>)
      requires Valid() && Run(start, vs, lane)
      modifies this`lane
      ensures Valid() && Run(start, us, lane) && WriterPart(us) == WriterPart(vs)
      ensures WriterSame(old(lane), lane)
      ensures quiet ==> us == vs
    {
      us := vs;
    }

    /** The writing peer runs and extends the run vs so far. */
    method PeerWrites(ghost start: Lane, ghost vs: seq<Move>) returns (ghost us: seq<Move>)
      requires Valid() && Run(start, vs, lane)
      modifies this`lane, this`idx, ring
      ensures Valid() && Run(start, us, lane) && ReaderPart(us) == ReaderPart(vs)
      ensures ReaderSame(old(lane), lane)
      ensures quiet ==> us == vs && lane == old(lane)
    {
      us := vs;
    }
  }

  // ---- single accesses on the image

  lemma AvailPlace(l: Lane, s: seq<u16>, idx: u16, id: u16)
    requires AvailImage(l, s, idx) && l.ring.writer.WIdle? && Credit(l, Slot(id, 0))
    ensures CanMove(l, W(Place(Slot(id, 0)))) && |s| > 0
    ensures var m := Write(l, Place(Slot(id, 0)));
            AvailImage(m, s, idx) && m.ring.writer == WPlaced(Slot(id, 0), Masked(idx, |s|))
  {
    PlaceKeeps(l, Slot(id, 0));
  }

  lemma AvailStore(l: Lane, s: seq<u16>, idx: u16, id: u16, pos: nat)
    requires AvailImage(l, s, idx) && l.ring.writer == WPlaced(Slot(id, 0), pos)
    ensures CanMove(l, W(StoreId)) && pos < |s|
    ensures var m := Write(l, StoreId);
            AvailImage(m, s[pos := id], idx) && m.ring.writer == WFull(Slot(id, 0), pos)
  {
    StoreKeeps(l, StoreId);
  }

  lemma AvailPublish(l: Lane, s: seq<u16>, idx: u16)
    requires AvailImage(l, s, idx) && l.ring.writer.WFull?
    ensures CanMove(l, W(Publish)) && AvailImage(Write(l, Publish), s, Inc16(idx))
    ensures Write(l, Publish).ring.writer.WIdle?
  {
    PublishKeeps(l);
  }

  lemma UsedPlace(l: Lane, s: seq<Slot>, idx: u16, item: Slot)
    requires UsedImage(l, s, idx) && l.ring.writer.WIdle? && Credit(l, item)
    ensures CanMove(l, W(Place(item))) && |s| > 0
    ensures var m := Write(l, Place(item));
            UsedImage(m, s, idx) && m.ring.writer == WPlaced(item, Masked(idx, |s|))
  {
    PlaceKeeps(l, item);
  }

  lemma UsedStoreId(l: Lane, s: seq<Slot>, idx: u16, item: Slot, pos: nat)
    requires UsedImage(l, s, idx) && l.ring.writer == WPlaced(item, pos)
    ensures CanMove(l, W(StoreId)) && pos < |s|
    ensures var m := Write(l, StoreId);
            UsedImage(m, s[pos := s[pos].(id := item.id)], idx) && m.ring.writer == WHalf(item, pos)
  {
    StoreKeeps(l, StoreId);
  }

  lemma UsedStoreLen(l: Lane, s: seq<Slot>, idx: u16, item: Slot, pos: nat)
    requires UsedImage(l, s, idx) && l.ring.writer == WHalf(item, pos)
    ensures CanMove(l, W(StoreLen)) && pos < |s|
    ensures var m := Write(l, StoreLen);
            UsedImage(m, s[pos := s[pos].(len := item.len)], idx) && m.ring.writer == WFull(item, pos)
  {
    StoreKeeps(l, StoreLen);
  }

  lemma UsedPublish(l: Lane, s: seq<Slot>, idx: u16)
    requires UsedImage(l, s, idx) && l.ring.writer.WFull?
    ensures CanMove(l, W(Publish)) && UsedImage(Write(l, Publish), s, Inc16(idx))
    ensures Write(l, Publish).ring.writer.WIdle?
  {
    PublishKeeps(l);
  }

  /** The entry that the reader takes next. */
  function Oldest(l: Lane): Slot {
    if l.taken < |l.log| then l.log[l.taken] else Slot(0, 0)
  }

  lemma UsedCheck(l: Lane, s: seq<Slot>, idx: u16)
    requires UsedImage(l, s, idx) && l.ring.reader.RIdle?
    ensures CanMove(l, R(Check)) && |s| > 0
    ensures var m := Read(l, Check);
            && UsedImage(m, s, idx) && m.ring.cursor == l.ring.cursor && m.taken == l.taken && m.log == l.log
            && (idx == l.ring.cursor <==> Pending(l) == [])
            && (if idx == l.ring.cursor then m == l else m.ring.reader.RSeen?)
            && (Pending(l) != [] ==> Pending(l)[0] == Oldest(l) && l.taken < |l.log|)
  {
    CheckKeeps(l);
    EqualMeansEmpty(l);
  }

  lemma UsedLocate(l: Lane, s: seq<Slot>, idx: u16)
    requires UsedImage(l, s, idx) && l.ring.reader.RSeen?
    ensures CanMove(l, R(Locate)) && |s| > 0
    ensures var m := Read(l, Locate);
            && UsedImage(m, s, idx) && m.ring.cursor == l.ring.cursor && m.taken == l.taken && m.log == l.log
            && m.ring.reader == RAt(Masked(l.ring.cursor, |s|))
  {
    LocateKeeps(l);
  }

  lemma UsedLoadId(l: Lane, s: seq<Slot>, idx: u16, pos: nat)
    requires UsedImage(l, s, idx) && l.ring.reader == RAt(pos)
    ensures CanMove(l, R(LoadId)) && pos < |s| && s[pos].id == Oldest(l).id
    ensures var m := Read(l, LoadId);
            && UsedImage(m, s, idx) && m.ring.cursor == l.ring.cursor && m.taken == l.taken && m.log == l.log
            && m.ring.reader == RHalf(pos, Oldest(l).id)
  {
    LoadKeeps(l, LoadId);
  }

  lemma UsedLoadLen(l: Lane, s: seq<Slot>, idx: u16, pos: nat)
    requires UsedImage(l, s, idx) && l.ring.reader == RHalf(pos, Oldest(l).id)
    ensures CanMove(l, R(LoadLen)) && pos < |s| && s[pos].len == Oldest(l).len
    ensures var m := Read(l, LoadLen);
            && UsedImage(m, s, idx) && m.ring.cursor == l.ring.cursor && m.taken == l.taken && m.log == l.log
            && m.ring.reader == RHas(Oldest(l))
  {
    LoadKeeps(l, LoadLen);
  }

  lemma UsedTake(l: Lane, s: seq<Slot>, idx: u16)
    requires UsedImage(l, s, idx) && l.ring.reader.RHas?
    ensures CanMove(l, R(Take))
    ensures var m := Read(l, Take);
            && UsedImage(m, s, idx) && m.ring.cursor == Inc16(l.ring.cursor) && m.ring.reader.RIdle?
  {
    TakeKeeps(l);
  }

  lemma AvailCheck(l: Lane, s: seq<u16>, idx: u16)
    requires AvailImage(l, s, idx) && l.ring.reader.RIdle?
    ensures CanMove(l, R(Check)) && |s| > 0
    ensures var m := Read(l, Check);
            && AvailImage(m, s, idx) && m.ring.cursor == l.ring.cursor && m.taken == l.taken && m.log == l.log
            && (idx == l.ring.cursor <==> Pending(l) == [])
            && (if idx == l.ring.cursor then m == l else m.ring.reader.RSeen?)
            && (Pending(l) != [] ==> Pending(l)[0] == Oldest(l) && l.taken < |l.log|)
  {
    CheckKeeps(l);
    EqualMeansEmpty(l);
  }

  lemma AvailLocate(l: Lane, s: seq<u16>, idx: u16)
    requires AvailImage(l, s, idx) && l.ring.reader.RSeen?
    ensures CanMove(l, R(Locate)) && |s| > 0
    ensures var m := Read(l, Locate);
            && AvailImage(m, s, idx) && m.ring.cursor == Inc16(l.ring.cursor) && m.taken == l.taken && m.log == l.log
            && m.ring.reader == RAt(Masked(l.ring.cursor, |s|))
  {
    LocateKeeps(l);
  }

  lemma AvailLoadId(l: Lane, s: seq<u16>, idx: u16, pos: nat)
    requires AvailImage(l, s, idx) && l.ring.reader == RAt(pos)
    ensures CanMove(l, R(LoadId)) && pos < |s| && s[pos] == Oldest(l).id
    ensures var m := Read(l, LoadId);
            && AvailImage(m, s, idx) && m.ring.cursor == l.ring.cursor && m.taken == l.taken && m.log == l.log
            && m.ring.reader.RHas? && m.ring.reader.item == Oldest(l)
  {
    LoadKeeps(l, LoadId);
    assert LaneInv(Read(l, LoadId));
  }

  lemma AvailTake(l: Lane, s: seq<u16>, idx: u16)
    requires AvailImage(l, s, idx) && l.ring.reader.RHas?
    ensures CanMove(l, R(Take))
    ensures var m := Read(l, Take);
            && AvailImage(m, s, idx) && m.ring.cursor == l.ring.cursor && m.ring.reader.RIdle?
  {
    TakeKeeps(l);
  }

  lemma AvailKind(l: Lane, s: seq<u16>, idx: u16)
    requires AvailImage(l, s, idx)
    ensures LaneInv(l) && l.ring.kind.Avail?
  {
  }

  lemma UsedKind(l: Lane, s: seq<Slot>, idx: u16)
    requires UsedImage(l, s, idx)
    ensures LaneInv(l) && l.ring.kind.Used?
  {
  }

  /** The call has published its entry as the next one; the reader may have taken some meanwhile. */
  ghost predicate Published(l: Lane, m: Lane, item: Slot) {
    m.ring.writer.WIdle? && m.log == l.log + [item] && l.taken <= m.taken
  }

  lemma AfterWrite(l: Lane, vs: seq<Move>, m: Lane, item: Slot)
    requires l.ring.writer.WIdle? && Run(l, vs, m) && WriterPart(vs) == PutSteps(l.ring.kind, item)
    ensures Published(l, m, item)
  {
    hide Run, WriterPart, PutSteps;
    WholeWrite(l, vs, m, item);
  }

  /** The call has taken one entry; the writer may have published some meanwhile. */
  predicate TookOne(l: Lane, m: Lane) {
    m.taken == l.taken + 1 && l.log <= m.log
  }

  lemma AfterRead(l: Lane, vs: seq<Move>, m: Lane)
    requires l.ring.reader.RIdle? && Run(l, vs, m) && ReaderPart(vs) == GetSteps(l.ring.kind)
    ensures TookOne(l, m)
  {
    hide Run, ReaderPart, GetSteps;
    WholeRead(l, vs, m);
  }

  lemma MaskedBelow(idx: u16, n: nat)
    requires RingSize(n)
    ensures 0 < n && Masked(idx, n) == idx % n
  {
    assert idx % U16 == idx;
    MaskedCounter(idx, n);
  }

  lemma UsedSize(l: Lane, s: seq<Slot>, idx: u16)
    requires UsedImage(l, s, idx)
    ensures RingSize(|s|)
  {
  }

  lemma LowBit(x: nat)
    ensures BitAnd(x, 1) == x % 2
  {
    if x > 0 { assert BitAnd(x, 1) == 2 * BitAnd(x / 2, 0) + x % 2; }
  }

  // ---- struct virtqueue

  /** What a notified peer finds: how far the avail ring of the queue that notifies has been published,
      and the used ring of the other queue. */
  datatype Found = Found(avail: u16, used: u16)

  class Virtqueue {
    const nentries: u16
    const desc: array<Desc>
    const avail: AvailRing
    const used: UsedRing
    var queuedCnt: u16
    var descHeadIdx: u16
    var usedConsIdx: u16
    var availableIdx: u16
    ghost var told: seq<Found>  // one for each notification

    /** `virtqueue_create`: the local part starts cleared. */
    constructor (nentries: u16, desc: array<Desc>, avail: AvailRing, used: UsedRing)
      ensures this.nentries == nentries && this.desc == desc && this.avail == avail && this.used == used
      ensures queuedCnt == 0 && descHeadIdx == 0 && usedConsIdx == 0 && availableIdx == 0 && told == []
    {
      this.nentries, this.desc, this.avail, this.used := nentries, desc, avail, used;
      queuedCnt, descHeadIdx, usedConsIdx, availableIdx, told := 0, 0, 0, 0, [];
    }

    /** `vq_ring_update_avail` */
    method UpdateAvail(descIdx: u16) returns (ghost vs: seq<Move>)
      requires avail.Valid() && avail.ring.Length == nentries
      requires avail.lane.ring.writer.WIdle? && Credit(avail.lane, Slot(descIdx, 0))
      modifies this`queuedCnt, avail`lane, avail`idx, avail.ring
      ensures avail.Valid() && Run(old(avail.lane), vs, avail.lane)
      ensures WriterPart(vs) == PutSteps(Avail, Slot(descIdx, 0)) && (avail.quiet ==> ReaderPart(vs) == [])
      ensures queuedCnt == Inc16(old(queuedCnt))
    {
      hide AvailImage, LaneInv, Credit, CanMove, Run, WriterPart, ReaderPart, Write, Read, Inc16, PutSteps;
      EmptyParts();
      ghost var item := Slot(descIdx, 0);
      CallSteps(Avail, item);
      ghost var l0 := avail.lane;
      AvailPlace(avail.lane, avail.ring[..], avail.idx, descIdx);
      var availIdx := Masked(avail.idx, nentries);
      avail.lane := Write(avail.lane, Place(item));
      RunOne(l0, W(Place(item)));
      vs := [W(Place(item))];

      vs := avail.PeerReads(l0, vs);

      ghost var l2 := avail.lane;
      ghost var s := avail.ring[..];
      AvailStore(avail.lane, avail.ring[..], avail.idx, descIdx, availIdx);
      avail.ring[availIdx] := descIdx;
      assert avail.ring[..] == s[availIdx := descIdx];
      avail.lane := Write(avail.lane, StoreId);
      RunStep(l0, vs, l2, W(StoreId));
      vs := vs + [W(StoreId)];

      vs := avail.PeerReads(l0, vs);

      ghost var l4 := avail.lane;
      AvailPublish(avail.lane, avail.ring[..], avail.idx);
      avail.idx := Inc16(avail.idx);
      avail.lane := Write(avail.lane, Publish);
      RunStep(l0, vs, l4, W(Publish));
      vs := vs + [W(Publish)];

      queuedCnt := Inc16(queuedCnt);
    }

    /** `vq_ring_update_used`. Whatever the ring holds, one slot and the index change; on the image of a
        lane they are, one by one, the accesses of a write. */
    method UpdateUsed(headIdx: u16, len: u32) returns (ghost vs: seq<Move>)
      requires used.ring.Length == nentries && RingSize(nentries)
      requires used.Valid() ==> used.lane.ring.writer.WIdle? && Credit(used.lane, Slot(headIdx, len))
      modifies used`lane, used`idx, used.ring
      ensures used.idx == Inc16(old(used.idx)) && Masked(old(used.idx), nentries) < nentries
      ensures used.ring[..] == old(used.ring[..])[Masked(old(used.idx), nentries) := Slot(headIdx, len)]
      ensures old(used.Valid()) ==> used.Valid() && Run(old(used.lane), vs, used.lane)
      ensures old(used.Valid()) ==> WriterPart(vs) == PutSteps(Used, Slot(headIdx, len))
      ensures old(used.Valid()) && used.quiet ==> ReaderPart(vs) == []
    {
      hide UsedImage, LaneInv, Credit, CanMove, Run, WriterPart, ReaderPart, Write, Read, Inc16, PutSteps, RingSize;
      EmptyParts();
      ghost var item := Slot(headIdx, len);
      CallSteps(Used, item);
      ghost var ok, l0 := used.Valid(), used.lane;
      vs := [];
      MaskedBelow(used.idx, nentries);
      var usedIdx := Masked(used.idx, nentries);
      if ok {
        UsedPlace(used.lane, used.ring[..], used.idx, item);
        used.lane := Write(used.lane, Place(item));
        RunOne(l0, W(Place(item)));
        vs := [W(Place(item))];

        vs := used.PeerReads(l0, vs);
      }

      ghost var l2 := used.lane;
      ghost var s := used.ring[..];
      used.ring[usedIdx] := used.ring[usedIdx].(id := headIdx);
      assert used.ring[..] == s[usedIdx := s[usedIdx].(id := headIdx)];
      if ok {
        UsedStoreId(l2, s, used.idx, item, usedIdx);
        used.lane := Write(used.lane, StoreId);
        RunStep(l0, vs, l2, W(StoreId));
        vs := vs + [W(StoreId)];

        vs := used.PeerReads(l0, vs);
      }

      ghost var l4 := used.lane;
      s := used.ring[..];
      used.ring[usedIdx] := used.ring[usedIdx].(len := len);
      assert used.ring[..] == s[usedIdx := s[usedIdx].(len := len)];
      if ok {
        UsedStoreLen(l4, s, used.idx, item, usedIdx);
        used.lane := Write(used.lane, StoreLen);
        RunStep(l0, vs, l4, W(StoreLen));
        vs := vs + [W(StoreLen)];

        vs := used.PeerReads(l0, vs);
      }

      ghost var l6 := used.lane;
      used.idx := Inc16(used.idx);
      if ok {
        UsedPublish(l6, used.ring[..], old(used.idx));
        used.lane := Write(used.lane, Publish);
        RunStep(l0, vs, l6, W(Publish));
        vs := vs + [W(Publish)];
      }
    }

    /** `virtqueue_get_buffer` */
    method GetBuffer() returns (buffer: Option<nat>, len: nat, idx: u16, ghost vs: seq<Move>)
      requires used.Valid() && used.ring.Length == nentries == desc.Length
      requires used.lane.ring.reader.RIdle? && used.lane.ring.cursor == usedConsIdx
      requires Pending(used.lane) != [] ==> Pending(used.lane)[0].id < desc.Length
      modifies this`usedConsIdx, used`lane, used`idx, used.ring
      ensures used.Valid() && Run(old(used.lane), vs, used.lane)
      ensures used.lane.ring.reader.RIdle? && used.lane.ring.cursor == usedConsIdx
      ensures used.quiet ==> WriterPart(vs) == []
      ensures buffer.None? <==> Pending(old(used.lane)) == []
      ensures buffer.None? ==> used.lane == old(used.lane) && ReaderPart(vs) == [Check]
      ensures buffer.Some? ==>
                && ReaderPart(vs) == GetSteps(Used)
                && TookOne(old(used.lane), used.lane)
                && Slot(idx, len) == Pending(old(used.lane))[0]
                && buffer.value == old(desc[idx].addr)
    {
      hide UsedImage, LaneInv, CanMove, Run, WriterPart, ReaderPart, Write, Read, Inc16, Pending, GetSteps, TookOne;
      EmptyParts();
      CallSteps(Used, Slot(0, 0));
      len, idx := 0, 0;
      ghost var l0 := used.lane;
      ghost var next := Oldest(used.lane);
      UsedCheck(used.lane, used.ring[..], used.idx);
      UsedKind(used.lane, used.ring[..], used.idx);
      RunOne(l0, R(Check));
      vs := [R(Check)];
      used.lane := Read(used.lane, Check);
      if usedConsIdx == used.idx {
        return None, 0, 0, vs;
      }

      vs := used.PeerWrites(l0, vs);

      ghost var l2 := used.lane;
      UsedLocate(used.lane, used.ring[..], used.idx);
      var usedIdx := Masked(usedConsIdx, nentries);
      used.lane := Read(used.lane, Locate);
      RunStep(l0, vs, l2, R(Locate));
      vs := vs + [R(Locate)];

      vs := used.PeerWrites(l0, vs);

      ghost var l4 := used.lane;
      UsedLoadId(used.lane, used.ring[..], used.idx, usedIdx);
      SmallWord(used.ring[usedIdx].id);
      var descIdx := used.ring[usedIdx].id % U16;
      used.lane := Read(used.lane, LoadId);
      RunStep(l0, vs, l4, R(LoadId));
      vs := vs + [R(LoadId)];

      vs := used.PeerWrites(l0, vs);

      ghost var l6 := used.lane;
      UsedLoadLen(used.lane, used.ring[..], used.idx, usedIdx);
      len := used.ring[usedIdx].len;
      used.lane := Read(used.lane, LoadLen);
      RunStep(l0, vs, l6, R(LoadLen));
      vs := vs + [R(LoadLen)];
      idx := descIdx;

      vs := used.PeerWrites(l0, vs);

      ghost var l8 := used.lane;
      UsedTake(used.lane, used.ring[..], used.idx);
      usedConsIdx := Inc16(usedConsIdx);
      used.lane := Read(used.lane, Take);
      RunStep(l0, vs, l8, R(Take));
      vs := vs + [R(Take)];
      AfterRead(l0, vs, used.lane);

      buffer := Some(desc[descIdx].addr);
    }

    /** `virtqueue_get_available_buffer`: the cursor is incremented before the entry is loaded. */
    method GetAvailableBuffer() returns (buffer: Option<nat>, availIdx: u16, len: nat, ghost vs: seq<Move>)
      requires avail.Valid() && avail.ring.Length == nentries == desc.Length
      requires avail.lane.ring.reader.RIdle? && avail.lane.ring.cursor == availableIdx
      requires Pending(avail.lane) != [] ==> Pending(avail.lane)[0].id < desc.Length
      modifies this`availableIdx, avail`lane, avail`idx, avail.ring
      ensures avail.Valid() && Run(old(avail.lane), vs, avail.lane)
      ensures avail.lane.ring.reader.RIdle? && avail.lane.ring.cursor == availableIdx
      ensures avail.quiet ==> WriterPart(vs) == []
      ensures buffer.None? <==> Pending(old(avail.lane)) == []
      ensures buffer.None? ==> avail.lane == old(avail.lane) && ReaderPart(vs) == [Check]
      ensures buffer.Some? ==>
                && ReaderPart(vs) == GetSteps(Avail)
                && TookOne(old(avail.lane), avail.lane)
                && availIdx == Pending(old(avail.lane))[0].id
                && Desc(buffer.value, len) == old(desc[availIdx])
    {
      hide AvailImage, LaneInv, CanMove, Run, WriterPart, ReaderPart, Write, Read, Inc16, Pending, GetSteps, TookOne;
      EmptyParts();
      CallSteps(Avail, Slot(0, 0));
      ghost var l0 := avail.lane;
      AvailCheck(avail.lane, avail.ring[..], avail.idx);
      AvailKind(avail.lane, avail.ring[..], avail.idx);
      RunOne(l0, R(Check));
      vs := [R(Check)];
      avail.lane := Read(avail.lane, Check);
      if availableIdx == avail.idx {
        return None, 0, 0, vs;
      }

      vs := avail.PeerWrites(l0, vs);

      ghost var l2 := avail.lane;
      AvailLocate(avail.lane, avail.ring[..], avail.idx);
      var headIdx := Masked(availableIdx, nentries);
      availableIdx := Inc16(availableIdx);
      avail.lane := Read(avail.lane, Locate);
      RunStep(l0, vs, l2, R(Locate));
      vs := vs + [R(Locate)];

      vs := avail.PeerWrites(l0, vs);

      ghost var l4 := avail.lane;
      AvailLoadId(avail.lane, avail.ring[..], avail.idx, headIdx);
      availIdx := avail.ring[headIdx];
      avail.lane := Read(avail.lane, LoadId);
      RunStep(l0, vs, l4, R(LoadId));
      vs := vs + [R(LoadId)];

      vs := avail.PeerWrites(l0, vs);

      ghost var l6 := avail.lane;
      AvailTake(avail.lane, avail.ring[..], avail.idx);
      buffer := Some(desc[availIdx].addr);
      len := desc[availIdx].len;
      avail.lane := Read(avail.lane, Take);
      RunStep(l0, vs, l6, R(Take));
      vs := vs + [R(Take)];
      AfterRead(l0, vs, avail.lane);
    }

    /** `virtqueue_add_buffer` */
    method AddBuffer(headIdx: u16) returns (status: int, ghost vs: seq<Move>)
      requires avail.Valid() && avail.ring.Length == nentries
      requires avail.lane.ring.writer.WIdle? && Credit(avail.lane, Slot(headIdx, 0))
      modifies this`queuedCnt, avail`lane, avail`idx, avail.ring
      ensures status == VQUEUE_SUCCESS
      ensures avail.Valid() && Run(old(avail.lane), vs, avail.lane) && (avail.quiet ==> ReaderPart(vs) == [])
      ensures Published(old(avail.lane), avail.lane, Slot(headIdx, 0))
    {
      hide AvailImage, LaneInv, Credit, Run, WriterPart, ReaderPart, PutSteps, Published;
      ghost var l := avail.lane;
      AvailKind(avail.lane, avail.ring[..], avail.idx);
      vs := UpdateAvail(headIdx);
      AfterWrite(l, vs, avail.lane, Slot(headIdx, 0));
      status := VQUEUE_SUCCESS;
    }

    /** `virtqueue_add_consumed_buffer`; the check lets an index equal to the ring size pass. */
    method AddConsumedBuffer(headIdx: u16, len: u32) returns (status: int, ghost vs: seq<Move>)
      requires used.Valid() && used.ring.Length == nentries
      requires headIdx <= nentries ==> used.lane.ring.writer.WIdle? && Credit(used.lane, Slot(headIdx, len))
      modifies used`lane, used`idx, used.ring
      ensures status == (if headIdx <= nentries then VQUEUE_SUCCESS else ERROR_VRING_NO_BUFF)
      ensures used.Valid() && Run(old(used.lane), vs, used.lane) && (used.quiet ==> ReaderPart(vs) == [])
      ensures if headIdx <= nentries then Published(old(used.lane), used.lane, Slot(headIdx, len))
              else vs == [] && used.ring[..] == old(used.ring[..]) && used.idx == old(used.idx)
    {
      hide UsedImage, LaneInv, Credit, WriterPart, ReaderPart, PutSteps, Published;
      vs := [];
      EmptyParts();
      if headIdx > nentries {
        return ERROR_VRING_NO_BUFF, vs;
      }
      hide Run;
      ghost var l := used.lane;
      UsedKind(used.lane, used.ring[..], used.idx);
      UsedSize(used.lane, used.ring[..], used.idx);
      vs := UpdateUsed(headIdx, len);
      AfterWrite(l, vs, used.lane, Slot(headIdx, len));
      status := VQUEUE_SUCCESS;
    }

    /** `virtqueue_fill_avail_buffers` */
    method FillAvailBuffers(buffer: nat, len: u32) returns (status: int, ghost vs: seq<Move>)
      requires avail.Valid() && avail.ring.Length == nentries
      requires descHeadIdx < desc.Length
      requires avail.lane.ring.writer.WIdle? && Credit(avail.lane, Slot(descHeadIdx, 0))
      modifies this`queuedCnt, this`descHeadIdx, desc, avail`lane, avail`idx, avail.ring
      ensures status == VQUEUE_SUCCESS
      ensures avail.Valid() && Run(old(avail.lane), vs, avail.lane) && (avail.quiet ==> ReaderPart(vs) == [])
      ensures Published(old(avail.lane), avail.lane, Slot(old(descHeadIdx), 0))
      ensures desc[..] == old(desc[..])[old(descHeadIdx) := Desc(buffer, len)]
      ensures descHeadIdx == Inc16(old(descHeadIdx))
    {
      hide AvailImage, LaneInv, Credit, Run, WriterPart, ReaderPart, PutSteps, Published, Inc16;
      var headIdx := descHeadIdx;
      desc[headIdx] := Desc(buffer, len);
      descHeadIdx := Inc16(descHeadIdx);
      ghost var l := avail.lane;
      AvailKind(avail.lane, avail.ring[..], avail.idx);
      vs := UpdateAvail(headIdx);
      AfterWrite(l, vs, avail.lane, Slot(headIdx, 0));
      status := VQUEUE_SUCCESS;
    }

    /** `vq_ring_add_buffer`: a null buffer is not entered in the table and does not advance the head. */
    method RingAddBuffer(headIdx: u16, buffer: Option<nat>, len: u32) returns (next: u16)
      requires headIdx < desc.Length
      modifies desc
      ensures buffer.None? ==> next == headIdx && desc[..] == old(desc[..])
      ensures buffer.Some? ==>
                next == Inc16(headIdx) && desc[..] == old(desc[..])[headIdx := Desc(buffer.value, len)]
    {
      if buffer.None? {
        return headIdx;
      }
      desc[headIdx] := Desc(buffer.value, len);
      next := Inc16(headIdx);
    }

    /** `virtqueue_fill_used_buffers`, also on a ring whose index was not cleared */
    method FillUsedBuffers(buffer: Option<nat>, len: u32) returns (status: int, ghost vs: seq<Move>)
      requires used.ring.Length == nentries && RingSize(nentries)
      requires descHeadIdx < desc.Length
      requires used.Valid() ==> used.lane.ring.writer.WIdle? && Credit(used.lane, Slot(descHeadIdx, len))
      modifies this`descHeadIdx, desc, used`lane, used`idx, used.ring
      ensures status == VQUEUE_SUCCESS
      ensures used.idx == Inc16(old(used.idx)) && Masked(old(used.idx), nentries) < nentries
      ensures used.ring[..] == old(used.ring[..])[Masked(old(used.idx), nentries) := Slot(old(descHeadIdx), len)]
      ensures old(used.Valid()) ==>
                && used.Valid() && Run(old(used.lane), vs, used.lane) && (used.quiet ==> ReaderPart(vs) == [])
                && Published(old(used.lane), used.lane, Slot(old(descHeadIdx), len))
      ensures buffer.Some? ==>
                && desc[..] == old(desc[..])[old(descHeadIdx) := Desc(buffer.value, len)]
                && descHeadIdx == Inc16(old(descHeadIdx))
      ensures buffer.None? ==> desc[..] == old(desc[..]) && descHeadIdx == old(descHeadIdx)
    {
      hide UsedImage, LaneInv, Credit, Run, WriterPart, ReaderPart, PutSteps, Published, Inc16, RingSize;
      var headIdx := descHeadIdx;
      var idx := RingAddBuffer(headIdx, buffer, len);
      descHeadIdx := idx;
      ghost var ok, l := used.Valid(), used.lane;
      if ok { UsedKind(used.lane, used.ring[..], used.idx); }
      vs := UpdateUsed(headIdx, len);
      if ok { AfterWrite(l, vs, used.lane, Slot(headIdx, len)); }
      status := VQUEUE_SUCCESS;
    }

    /** `virtqueue_disable_cb` sets a flag of the avail ring, */
    method DisableCb()
      modifies avail`flags
      ensures avail.flags % 2 == 1 && avail.flags / 2 == old(avail.flags) / 2
    {
      avail.flags := avail.flags - avail.flags % 2 + NO_INTERRUPT;
    }

    /** `virtqueue_kick` tests one of the used ring. */
    method Kick(ghost other: Virtqueue) returns (notified: bool)
      modifies this`queuedCnt, this`told
      ensures notified <==> used.flags % 2 == 0
      ensures told == old(told) + if notified then [Found(avail.idx, other.used.idx)] else []
      ensures queuedCnt == 0
    {
      notified := BitAnd(used.flags, NO_NOTIFY) == 0;
      LowBit(used.flags);
      if notified {
        told := told + [Found(avail.idx, other.used.idx)];
      }
      queuedCnt := 0;
    }
  }
}
