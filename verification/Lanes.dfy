/** One ring of a vring (the avail ring or the used ring) as a lane with one writing core and one
    reading core, advanced one memory access at a time.

    The ring itself (`Ring`) holds what the code holds: the slots and the free-running 16-bit index
    in shared memory, the reader's private 16-bit cursor, and how far each core has got inside its
    current call. Neither the writer's nor the reader's next step looks at anything else. `Lane`
    adds two histories that no step reads: everything ever published, and how many entries the
    reader has taken.
 */
module Lanes {
  import opened Words

  datatype Kind = Avail | Used

  /** A ring entry. The avail ring has descriptor indexes only; their len is 0 here. */
  datatype Slot = Slot(id: nat, len: nat)

  /** Progress of the writing core inside `vq_ring_update_avail` or `vq_ring_update_used`. */
  datatype Writer =
    | WIdle
    | WPlaced(item: Slot, pos: nat)  // slot number computed
    | WHalf(item: Slot, pos: nat)    // used ring: id stored, len not yet
    | WFull(item: Slot, pos: nat)    // entry stored, index not yet incremented

  /** Progress of the reading core inside `virtqueue_get_available_buffer` or `virtqueue_get_buffer`. */
  datatype Reader =
    | RIdle
    | RSeen                          // the index was found different from the cursor
    | RAt(pos: nat)                  // slot number computed (avail ring: cursor already incremented)
    | RHalf(pos: nat, id: nat)       // used ring: id loaded, len not yet
    | RHas(item: Slot)               // entry loaded

  datatype Ring = Ring(kind: Kind, n: nat, slots: seq<Slot>, idx: u16, cursor: u16,
                       writer: Writer, reader: Reader)

  datatype WriterStep = Place(item: Slot) | StoreId | StoreLen | Publish

  datatype ReaderStep = Check | Locate | LoadId | LoadLen | Take

  // ---- the steps on the ring

  predicate RingWf(r: Ring) {
    && 0 < r.n == |r.slots|
    && (r.writer.WPlaced? || r.writer.WHalf? || r.writer.WFull? ==> r.writer.pos < r.n)
    && (r.reader.RAt? || r.reader.RHalf? ==> r.reader.pos < r.n)
  }

  predicate CanWrite(r: Ring, s: WriterStep) {
    && RingWf(r)
    && match s {
         case Place(_) => r.writer.WIdle?
         case StoreId => r.writer.WPlaced?
         case StoreLen => r.writer.WHalf?
         case Publish => r.writer.WFull?
       }
  }

  predicate CanRead(r: Ring, s: ReaderStep) {
    && RingWf(r)
    && match s {
         case Check => r.reader.RIdle?
         case Locate => r.reader.RSeen?
         case LoadId => r.reader.RAt?
         case LoadLen => r.reader.RHalf?
         case Take => r.reader.RHas?
       }
  }

  function WriteStep(r: Ring, s: WriterStep): (r': Ring)
    requires CanWrite(r, s)
  {
    match s {
      case Place(item) =>
        r.(writer := WPlaced(item, Masked(r.idx, r.n)))
      case StoreId =>
        var pos, item := r.writer.pos, r.writer.item;
        r.(slots := r.slots[pos := r.slots[pos].(id := item.id)],
           writer := if r.kind.Used? then WHalf(item, pos) else WFull(item, pos))
      case StoreLen =>
        var pos, item := r.writer.pos, r.writer.item;
        r.(slots := r.slots[pos := r.slots[pos].(len := item.len)], writer := WFull(item, pos))
      case Publish =>
        r.(idx := (r.idx + 1) % U16, writer := WIdle)
    }
  }

  function ReadStep(r: Ring, s: ReaderStep): (r': Ring)
    requires CanRead(r, s)
  {
    match s {
      case Check =>
        // equal: the call returns no buffer
        if r.idx == r.cursor then r else r.(reader := RSeen)
      case Locate =>
        var r1 := r.(reader := RAt(Masked(r.cursor, r.n)));
        // the avail ring's reader increments its cursor before it loads the entry
        if r.kind.Avail? then r1.(cursor := (r.cursor + 1) % U16) else r1
      case LoadId =>
        var id := r.slots[r.reader.pos].id;
        r.(reader := if r.kind.Used? then RHalf(r.reader.pos, id) else RHas(Slot(id, 0)))
      case LoadLen =>
        r.(reader := RHas(Slot(r.reader.id, r.slots[r.reader.pos].len)))
      case Take =>
        var r1 := r.(reader := RIdle);
        // the used ring's reader increments it after
        if r.kind.Used? then r1.(cursor := (r.cursor + 1) % U16) else r1
    }
  }

  /** What a reader does next. */
  function NextRead(r: Ring): ReaderStep {
    match r.reader
    case RIdle => Check
    case RSeen => Locate
    case RAt(_) => LoadId
    case RHalf(_, _) => LoadLen
    case RHas(_) => Take
  }

  /** What a write in progress does next. */
  function NextWrite(r: Ring): WriterStep {
    match r.writer
    case WPlaced(_, _) => StoreId
    case WHalf(_, _) => StoreLen
    case _ => Publish
  }

  // ---- the lane: the ring and its histories

  datatype Lane = Lane(ring: Ring, log: seq<Slot>, taken: nat)

  function EmptyRing(kind: Kind, n: nat): Ring {
    Ring(kind, n, seq(n, i => Slot(0, 0)), 0, 0, WIdle, RIdle)
  }

  function EmptyLane(kind: Kind, n: nat): Lane {
    Lane(EmptyRing(kind, n), [], 0)
  }

  /** The entries that are not cleared as a whole keep what they hold; where one is cleared in part,
      what is left of it is as arbitrary as what was there. */
  function Kept(s: seq<Slot>, entries: nat): (t: seq<Slot>)
    ensures |t| == |s|
  {
    seq(|s|, i requires 0 <= i < |s| => if i < entries then Slot(0, 0) else s[i])
  }

  function Write(l: Lane, s: WriterStep): Lane
    requires CanWrite(l.ring, s)
  {
    Lane(WriteStep(l.ring, s), if s.Publish? then l.log + [l.ring.writer.item] else l.log, l.taken)
  }

  function Read(l: Lane, s: ReaderStep): Lane
    requires CanRead(l.ring, s)
  {
    Lane(ReadStep(l.ring, s), l.log, if s.Take? then l.taken + 1 else l.taken)
  }

  /** Published and not yet taken, oldest first. */
  function Pending(l: Lane): seq<Slot> {
    if l.taken <= |l.log| then l.log[l.taken..] else []
  }

  // ---- the invariant

  /** The slot of the k-th entry ever published, k modulo n. */
  function At(k: nat, n: nat): (pos: nat)
    requires 0 < n
    ensures pos < n
  {
    if k < n then k else At(k - n, n)
  }

  lemma {:induction false} AtIsMod(k: nat, n: nat)
    requires 0 < n
    ensures At(k, n) == k % n
    decreases k
  {
    if k < n {
      DivModUnique(k, n, 0, k);
    } else {
      AtIsMod(k - n, n);
      ModAddMultiple(k - n, n, 1);
    }
  }

  lemma AtDistinct(j: nat, k: nat, n: nat)
    requires 0 < n && k < j < k + n
    ensures At(j, n) != At(k, n)
  {
    AtIsMod(j, n);
    AtIsMod(k, n);
    if j % n == k % n { ModDistinct(j, k, n); }
  }

  /** The masked 16-bit image of a counter is the slot of that counter. */
  lemma MaskedIsAt(c: nat, n: nat)
    requires RingSize(n)
    ensures 0 < n && Masked(c % U16, n) == At(c, n)
  {
    MaskedCounter(c, n);
    AtIsMod(c, n);
  }

  /** One if the avail reader has moved its cursor past the entry it has not taken yet. */
  function Ahead(r: Ring): nat {
    if r.kind.Avail? && (r.reader.RAt? || r.reader.RHas?) then 1 else 0
  }

  ghost predicate Shape(l: Lane) {
    && RingWf(l.ring) && RingSize(l.ring.n)
    && l.taken <= |l.log| <= l.taken + l.ring.n
    && (l.ring.kind.Avail? ==> !l.ring.writer.WHalf? && !l.ring.reader.RHalf?)
  }

  /** The 16-bit index and cursor are the images of the unbounded counts. */
  ghost predicate Counters(l: Lane) {
    && l.ring.idx == |l.log| % U16
    && l.ring.cursor == (l.taken + Ahead(l.ring)) % U16
  }

  /** Every pending entry is intact in its slot. */
  ghost predicate Intact(l: Lane)
    requires RingWf(l.ring)
  {
    forall k | l.taken <= k < |l.log| :: l.ring.slots[At(k, l.ring.n)] == l.log[k]
  }

  ghost predicate AvailLens(l: Lane) {
    l.ring.kind.Avail? ==>
      && (forall i | 0 <= i < |l.ring.slots| :: l.ring.slots[i].len == 0)
      && (!l.ring.writer.WIdle? ==> l.ring.writer.item.len == 0)
  }

  ghost predicate WriterOk(l: Lane)
    requires RingWf(l.ring)
  {
    var r := l.ring;
    !r.writer.WIdle? ==>
      && |l.log| < l.taken + r.n
      && r.writer.pos == At(|l.log|, r.n)
      && (r.writer.WHalf? ==> r.slots[r.writer.pos].id == r.writer.item.id)
      && (r.writer.WFull? ==> r.slots[r.writer.pos] == r.writer.item)
  }

  ghost predicate ReaderOk(l: Lane)
    requires RingWf(l.ring)
  {
    var r := l.ring;
    !r.reader.RIdle? ==>
      && l.taken < |l.log|
      && (r.reader.RAt? || r.reader.RHalf? ==> r.reader.pos == At(l.taken, r.n))
      && (r.reader.RHalf? ==> r.reader.id == l.log[l.taken].id)
      && (r.reader.RHas? ==> r.reader.item == l.log[l.taken])
  }

  ghost predicate LaneInv(l: Lane) {
    Shape(l) && Counters(l) && Intact(l) && AvailLens(l) && WriterOk(l) && ReaderOk(l)
  }

  /** What a writer must bring to start a write: an entry fit for the ring, and the credit that
      fewer than n entries are pending. The code has no test for the second. */
  ghost predicate Credit(l: Lane, item: Slot) {
    && |l.log| < l.taken + l.ring.n
    && (l.ring.kind.Avail? ==> item.len == 0)
  }

  /** A lane at its start: the index is 0, and what the slots hold does not matter, but for the length
      that an avail entry does not have. */
  ghost predicate FreshLane(l: Lane, kind: Kind, n: nat) {
    && l == EmptyLane(kind, n).(ring := EmptyRing(kind, n).(slots := l.ring.slots))
    && |l.ring.slots| == n
    && (kind.Avail? ==> forall i | 0 <= i < n :: l.ring.slots[i].len == 0)
  }

  lemma FreshLaneInv(l: Lane, kind: Kind, n: nat)
    requires RingSize(n) && FreshLane(l, kind, n)
    ensures LaneInv(l) && Pending(l) == [] && l.ring.n == n && l.ring.kind == kind
  {
    var k: nat :| n == Pow2(k);
  }

  lemma EmptyLaneInv(kind: Kind, n: nat)
    requires RingSize(n)
    ensures LaneInv(EmptyLane(kind, n)) && Pending(EmptyLane(kind, n)) == []
  {
    FreshLaneInv(EmptyLane(kind, n), kind, n);
  }

  // ---- every step keeps it

  lemma PlaceKeeps(l: Lane, item: Slot)
    requires LaneInv(l) && CanWrite(l.ring, Place(item)) && Credit(l, item)
    ensures LaneInv(Write(l, Place(item)))
  {
    MaskedIsAt(|l.log|, l.ring.n);
  }

  /** The slot being written holds no pending entry. */
  lemma StoreHitsNoPending(l: Lane)
    requires LaneInv(l) && !l.ring.writer.WIdle?
    ensures forall k | l.taken <= k < |l.log| :: At(k, l.ring.n) != l.ring.writer.pos
  {
    forall k | l.taken <= k < |l.log| ensures At(k, l.ring.n) != l.ring.writer.pos {
      AtDistinct(|l.log|, k, l.ring.n);
    }
  }

  lemma StoreKeeps(l: Lane, s: WriterStep)
    requires LaneInv(l) && (s.StoreId? || s.StoreLen?) && CanWrite(l.ring, s)
    ensures LaneInv(Write(l, s))
  {
    StoreHitsNoPending(l);
    var l' := Write(l, s);
    assert Intact(l');
    assert AvailLens(l');
  }

  lemma PublishKeeps(l: Lane)
    requires LaneInv(l) && CanWrite(l.ring, Publish)
    ensures LaneInv(Write(l, Publish))
  {
    WrapSucc(|l.log|);
    var l' := Write(l, Publish);
    assert Intact(l');
    assert Counters(l');
  }

  lemma WriteKeeps(l: Lane, s: WriterStep)
    requires LaneInv(l) && CanWrite(l.ring, s) && (s.Place? ==> Credit(l, s.item))
    ensures LaneInv(Write(l, s))
  {
    match s {
      case Place(item) => PlaceKeeps(l, item);
      case Publish => PublishKeeps(l);
      case _ => StoreKeeps(l, s);
    }
  }

  /** Index and cursor are equal exactly when nothing is pending, for runs of any length. */
  lemma EqualMeansEmpty(l: Lane)
    requires LaneInv(l) && l.ring.reader.RIdle?
    ensures l.ring.idx == l.ring.cursor <==> Pending(l) == []
  {
    WrappedEqual(|l.log|, l.taken);
  }

  /** What a core loads is the oldest pending entry: published, and not overwritten since. */
  lemma LoadSeesOldest(l: Lane)
    requires LaneInv(l) && (l.ring.reader.RAt? || l.ring.reader.RHalf?)
    ensures Pending(l) != [] && l.ring.slots[l.ring.reader.pos] == Pending(l)[0]
  {
  }

  lemma CheckKeeps(l: Lane)
    requires LaneInv(l) && CanRead(l.ring, Check)
    ensures LaneInv(Read(l, Check))
  {
    EqualMeansEmpty(l);
  }

  lemma LocateKeeps(l: Lane)
    requires LaneInv(l) && CanRead(l.ring, Locate)
    ensures LaneInv(Read(l, Locate))
  {
    MaskedIsAt(l.taken, l.ring.n);
    WrapSucc(l.taken);
    var l' := Read(l, Locate);
    assert l'.ring.slots == l.ring.slots && l'.log == l.log && l'.taken == l.taken;
    assert l'.ring.reader.pos == At(l.taken, l.ring.n);
    assert Counters(l');
  }

  lemma LoadKeeps(l: Lane, s: ReaderStep)
    requires LaneInv(l) && (s.LoadId? || s.LoadLen?) && CanRead(l.ring, s)
    ensures LaneInv(Read(l, s))
  {
    LoadSeesOldest(l);
  }

  lemma TakeKeeps(l: Lane)
    requires LaneInv(l) && CanRead(l.ring, Take)
    ensures LaneInv(Read(l, Take))
  {
    WrapSucc(l.taken);
    assert Counters(Read(l, Take));
  }

  lemma ReadKeeps(l: Lane, s: ReaderStep)
    requires LaneInv(l) && CanRead(l.ring, s)
    ensures LaneInv(Read(l, s))
  {
    match s {
      case Check => CheckKeeps(l);
      case Locate => LocateKeeps(l);
      case Take => TakeKeeps(l);
      case _ => LoadKeeps(l, s);
    }
  }

  // ---- what the steps do to the pending entries

  lemma PendingAfterWrite(l: Lane, s: WriterStep)
    requires LaneInv(l) && CanWrite(l.ring, s)
    ensures Pending(Write(l, s)) == if s.Publish? then Pending(l) + [l.ring.writer.item] else Pending(l)
  {
  }

  lemma PendingAfterRead(l: Lane, s: ReaderStep)
    requires LaneInv(l) && CanRead(l.ring, s)
    ensures s.Take? ==> Pending(l) != [] && l.ring.reader.item == Pending(l)[0]
    ensures Pending(Read(l, s)) == if s.Take? then Pending(l)[1..] else Pending(l)
  {
  }
}
