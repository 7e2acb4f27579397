/** Whole calls of one core on a lane, interleaved with any steps of the other core.

    A run is a list of moves, each a step of the writer or of the reader. A call of `virtqueue.c` is
    a run whose own part is the call's list of accesses; the other part is whatever the peer does
    between them.
 */
module Calls {
  import opened Lanes

  datatype Move = W(w: WriterStep) | R(r: ReaderStep)

  /** A writer starts a write only with an entry fit for the ring and with credit. */
  ghost predicate CanMove(l: Lane, v: Move) {
    match v
    case W(w) => CanWrite(l.ring, w) && (w.Place? ==> Credit(l, w.item))
    case R(r) => CanRead(l.ring, r)
  }

  ghost function Moved(l: Lane, v: Move): Lane
    requires CanMove(l, v)
  {
    match v
    case W(w) => Write(l, w)
    case R(r) => Read(l, r)
  }

  ghost predicate Run(l: Lane, vs: seq<Move>, m: Lane)
    decreases |vs|
  {
    if vs == [] then m == l else CanMove(l, vs[0]) && Run(Moved(l, vs[0]), vs[1..], m)
  }

  function WriterPart(vs: seq<Move>): seq<WriterStep> {
    if vs == [] then [] else (if vs[0].W? then [vs[0].w] else []) + WriterPart(vs[1..])
  }

  function ReaderPart(vs: seq<Move>): seq<ReaderStep> {
    if vs == [] then [] else (if vs[0].R? then [vs[0].r] else []) + ReaderPart(vs[1..])
  }

  /** The accesses of `vq_ring_update_avail` or `vq_ring_update_used`. */
  function PutSteps(kind: Kind, item: Slot): seq<WriterStep> {
    if kind.Used? then [Place(item), StoreId, StoreLen, Publish] else [Place(item), StoreId, Publish]
  }

  /** The accesses of `virtqueue_get_available_buffer` or `virtqueue_get_buffer` after a check that
      found the ring not empty. */
  function GetSteps(kind: Kind): seq<ReaderStep> {
    if kind.Used? then [Check, Locate, LoadId, LoadLen, Take] else [Check, Locate, LoadId, Take]
  }

  /** The accesses one by one. */
  lemma CallSteps(kind: Kind, item: Slot)
    ensures PutSteps(kind, item)
            == if kind.Used? then [Place(item)] + [StoreId] + [StoreLen] + [Publish]
               else [Place(item)] + [StoreId] + [Publish]
    ensures GetSteps(kind)
            == if kind.Used? then [Check] + [Locate] + [LoadId] + [LoadLen] + [Take]
               else [Check] + [Locate] + [LoadId] + [Take]
  {
  }

  // ---- building runs

  lemma EmptyRun(l: Lane)
    ensures Run(l, [], l)
  {
  }

  lemma EmptyParts()
    ensures WriterPart([]) == [] && ReaderPart([]) == []
  {
  }

  lemma {:induction false} RunThen(l: Lane, vs: seq<Move>, m: Lane, us: seq<Move>, k: Lane)
    requires Run(l, vs, m) && Run(m, us, k)
    ensures Run(l, vs + us, k)
    decreases |vs|
  {
    hide CanMove, Moved;
    if vs == [] {
      assert vs + us == us;
    } else {
      RunThen(Moved(l, vs[0]), vs[1..], m, us, k);
      assert (vs + us)[1..] == vs[1..] + us;
    }
  }

  /** The first of some moves and the rest. */
  lemma FirstAndRest<T>(all: seq<T>, a: T, s: seq<T>, b: T, t: seq<T>)
    requires all == [a] + s == [b] + t
    ensures a == b && s == t
  {
    assert all[0] == a && all[0] == b;
    assert all[1..] == s && all[1..] == t;
  }

  lemma Regroup<T>(a: seq<T>, b: seq<T>, c: seq<T>)
    ensures a + (b + c) == (a + b) + c
  {
  }

  lemma {:induction false} WriterPartAdd(vs: seq<Move>, us: seq<Move>)
    ensures WriterPart(vs + us) == WriterPart(vs) + WriterPart(us)
  {
    if vs == [] {
      assert vs + us == us;
    } else {
      WriterPartAdd(vs[1..], us);
      assert (vs + us)[1..] == vs[1..] + us;
      Regroup(if vs[0].W? then [vs[0].w] else [], WriterPart(vs[1..]), WriterPart(us));
    }
  }

  lemma {:induction false} ReaderPartAdd(vs: seq<Move>, us: seq<Move>)
    ensures ReaderPart(vs + us) == ReaderPart(vs) + ReaderPart(us)
  {
    if vs == [] {
      assert vs + us == us;
    } else {
      ReaderPartAdd(vs[1..], us);
      assert (vs + us)[1..] == vs[1..] + us;
      Regroup(if vs[0].R? then [vs[0].r] else [], ReaderPart(vs[1..]), ReaderPart(us));
    }
  }

  lemma RunOne(l: Lane, v: Move)
    requires CanMove(l, v)
    ensures Run(l, [v], Moved(l, v))
    ensures WriterPart([v]) == if v.W? then [v.w] else []
    ensures ReaderPart([v]) == if v.R? then [v.r] else []
  {
    hide CanMove, Moved;
    assert [v][1..] == [];
  }

  // ---- what either core can rely on while the other moves

  lemma MoveKeeps(l: Lane, v: Move)
    requires LaneInv(l) && CanMove(l, v)
    ensures LaneInv(Moved(l, v))
  {
    hide LaneInv, Credit, CanWrite, CanRead;
    match v {
      case W(w) => WriteKeeps(l, w);
      case R(r) => ReadKeeps(l, r);
    }
  }

  lemma {:induction false} RunKeeps(l: Lane, vs: seq<Move>, m: Lane)
    requires LaneInv(l) && Run(l, vs, m)
    ensures LaneInv(m)
    decreases |vs|
  {
    hide LaneInv, CanMove, Moved;
    if vs != [] {
      MoveKeeps(l, vs[0]);
      RunKeeps(Moved(l, vs[0]), vs[1..], m);
    }
  }

  /** The reader's moves leave the shared memory and the writer alone. */
  predicate WriterSame(l: Lane, m: Lane) {
    && m.ring == l.ring.(cursor := m.ring.cursor, reader := m.ring.reader)
    && m.log == l.log && l.taken <= m.taken
  }

  /** The writer's moves leave the reader alone and only add to what has been published. */
  predicate ReaderSame(l: Lane, m: Lane) {
    && m.ring == l.ring.(slots := m.ring.slots, idx := m.ring.idx, writer := m.ring.writer)
    && l.log <= m.log && m.taken == l.taken
  }

  lemma MoveFrame(l: Lane, v: Move)
    requires CanMove(l, v)
    ensures v.R? ==> WriterSame(l, Moved(l, v))
    ensures v.W? ==> ReaderSame(l, Moved(l, v))
  {
  }

  lemma {:induction false} ReaderRuns(l: Lane, vs: seq<Move>, m: Lane)
    requires Run(l, vs, m) && WriterPart(vs) == []
    ensures WriterSame(l, m)
    decreases |vs|
  {
    if vs != [] {
      hide CanMove, Moved;
      MoveFrame(l, vs[0]);
      ReaderRuns(Moved(l, vs[0]), vs[1..], m);
    }
  }

  lemma {:induction false} WriterRuns(l: Lane, vs: seq<Move>, m: Lane)
    requires Run(l, vs, m) && ReaderPart(vs) == []
    ensures ReaderSame(l, m)
    decreases |vs|
  {
    if vs != [] {
      hide CanMove, Moved;
      MoveFrame(l, vs[0]);
      WriterRuns(Moved(l, vs[0]), vs[1..], m);
    }
  }

  /** A run of the peer's moves and one own move, one after the other, extend a run. */
  lemma RunOn(l: Lane, vs: seq<Move>, m: Lane, us: seq<Move>, k: Lane)
    requires Run(l, vs, m) && Run(m, us, k)
    ensures Run(l, vs + us, k)
    ensures WriterPart(vs + us) == WriterPart(vs) + WriterPart(us)
    ensures ReaderPart(vs + us) == ReaderPart(vs) + ReaderPart(us)
  {
    hide Run, WriterPart, ReaderPart;
    RunThen(l, vs, m, us, k);
    WriterPartAdd(vs, us);
    ReaderPartAdd(vs, us);
  }

  lemma RunStep(l: Lane, vs: seq<Move>, m: Lane, v: Move)
    requires Run(l, vs, m) && CanMove(m, v)
    ensures Run(l, vs + [v], Moved(m, v))
    ensures v.W? ==> WriterPart(vs + [v]) == WriterPart(vs) + [v.w] && ReaderPart(vs + [v]) == ReaderPart(vs)
    ensures v.R? ==> ReaderPart(vs + [v]) == ReaderPart(vs) + [v.r] && WriterPart(vs + [v]) == WriterPart(vs)
  {
    hide Run, WriterPart, ReaderPart, CanMove, Moved;
    RunOne(m, v);
    RunOn(l, vs, m, [v], Moved(m, v));
  }

  // ---- a whole call with the peer quiet

  ghost predicate IsRead(l: Lane, m: Lane) {
    exists vs :: Run(l, vs, m) && ReaderPart(vs) == GetSteps(l.ring.kind) && WriterPart(vs) == []
  }

  ghost predicate IsWrite(l: Lane, m: Lane, item: Slot) {
    exists vs :: Run(l, vs, m) && WriterPart(vs) == PutSteps(l.ring.kind, item) && ReaderPart(vs) == []
  }

  /** A whole read with any moves of the peer between its accesses, */
  ghost predicate IsReadAmid(l: Lane, m: Lane) {
    exists vs :: Run(l, vs, m) && ReaderPart(vs) == GetSteps(l.ring.kind)
  }

  /** and a whole write. */
  ghost predicate IsWriteAmid(l: Lane, m: Lane, item: Slot) {
    exists vs :: Run(l, vs, m) && WriterPart(vs) == PutSteps(l.ring.kind, item)
  }

  /** With the peer quiet a call's own steps determine where the lane ends up. */
  lemma {:induction false} OwnStepsDecide(l: Lane, vs: seq<Move>, us: seq<Move>, m: Lane, k: Lane)
    requires Run(l, vs, m) && Run(l, us, k)
    requires WriterPart(vs) == WriterPart(us) && ReaderPart(vs) == ReaderPart(us)
    requires WriterPart(vs) == [] || ReaderPart(vs) == []
    ensures m == k
    decreases |vs|
  {
    hide CanMove, Moved, WriterPart, ReaderPart;
    EmptyParts();
    if vs != [] { FirstPart(vs); }
    if us != [] { FirstPart(us); }
    if vs != [] && us != [] {
      if vs[0].W? {
        FirstAndRest(WriterPart(vs), vs[0].w, WriterPart(vs[1..]), us[0].w, WriterPart(us[1..]));
      } else {
        FirstAndRest(ReaderPart(vs), vs[0].r, ReaderPart(vs[1..]), us[0].r, ReaderPart(us[1..]));
      }
      OwnStepsDecide(Moved(l, vs[0]), vs[1..], us[1..], m, k);
    }
  }

  /** Two quiet calls of the same kind from the same state end in the same state. */
  lemma QuietCallsAgree(l: Lane, m: Lane, k: Lane, item: Slot)
    requires (IsRead(l, m) && IsRead(l, k)) || (IsWrite(l, m, item) && IsWrite(l, k, item))
    ensures m == k
  {
    hide Run, WriterPart, ReaderPart, GetSteps, PutSteps;
    if IsRead(l, m) && IsRead(l, k) {
      var vs :| Run(l, vs, m) && ReaderPart(vs) == GetSteps(l.ring.kind) && WriterPart(vs) == [];
      var us :| Run(l, us, k) && ReaderPart(us) == GetSteps(l.ring.kind) && WriterPart(us) == [];
      OwnStepsDecide(l, vs, us, m, k);
    } else {
      var vs :| Run(l, vs, m) && WriterPart(vs) == PutSteps(l.ring.kind, item) && ReaderPart(vs) == [];
      var us :| Run(l, us, k) && WriterPart(us) == PutSteps(l.ring.kind, item) && ReaderPart(us) == [];
      OwnStepsDecide(l, vs, us, m, k);
    }
  }

  lemma FirstPart(vs: seq<Move>)
    requires vs != []
    ensures if vs[0].W? then
              && WriterPart(vs) == [vs[0].w] + WriterPart(vs[1..]) && ReaderPart(vs) == ReaderPart(vs[1..])
              && WriterPart(vs) != []
            else
              && ReaderPart(vs) == [vs[0].r] + ReaderPart(vs[1..]) && WriterPart(vs) == WriterPart(vs[1..])
              && ReaderPart(vs) != []
  {
  }

  // ---- the effect of a whole call, whatever the peer does meanwhile

  /** What a write in progress still has to do. */
  function WritesLeft(r: Ring): seq<WriterStep> {
    match r.writer
    case WIdle => []
    case WPlaced(_, _) => if r.kind.Used? then [StoreId, StoreLen, Publish] else [StoreId, Publish]
    case WHalf(_, _) => [StoreLen, Publish]
    case WFull(_, _) => [Publish]
  }

  /** What a read in progress, its check passed, still has to do. */
  function ReadsLeft(r: Ring): seq<ReaderStep> {
    match r.reader
    case RIdle => []
    case RSeen => if r.kind.Used? then [Locate, LoadId, LoadLen, Take] else [Locate, LoadId, Take]
    case RAt(_) => if r.kind.Used? then [LoadId, LoadLen, Take] else [LoadId, Take]
    case RHalf(_, _) => [LoadLen, Take]
    case RHas(_) => [Take]
  }

  lemma WriteOn(l: Lane, w: WriterStep)
    requires CanWrite(l.ring, w) && !w.Place?
    ensures var m := Write(l, w);
            && WritesLeft(l.ring) == [w] + WritesLeft(m.ring)
            && (if w.Publish? then m.ring.writer.WIdle? && m.log == l.log + [l.ring.writer.item]
                else !m.ring.writer.WIdle? && m.log == l.log && m.ring.writer.item == l.ring.writer.item)
  {
  }

  lemma FirstWriteLeft(r: Ring)
    ensures WritesLeft(r) == [] <==> r.writer.WIdle?
    ensures WritesLeft(r) != [] ==> !WritesLeft(r)[0].Place?
  {
  }

  /** A write that has been started and is carried through publishes its entry, once and as the next. */
  lemma {:induction false} StartedWrite(l: Lane, vs: seq<Move>, m: Lane)
    requires !l.ring.writer.WIdle? && Run(l, vs, m) && WriterPart(vs) == WritesLeft(l.ring)
    ensures m.ring.writer.WIdle? && m.log == l.log + [l.ring.writer.item] && l.taken <= m.taken
    decreases |vs|
  {
    hide CanWrite, CanRead, WritesLeft, Write, Read, Credit;
    FirstWriteLeft(l.ring);
    var l1 := Moved(l, vs[0]);
    MoveFrame(l, vs[0]);
    if vs[0].R? {
      SameWritesLeft(l.ring, l1.ring);
      StartedWrite(l1, vs[1..], m);
    } else {
      WriteOn(l, vs[0].w);
      FirstAndRest(WriterPart(vs), vs[0].w, WriterPart(vs[1..]), vs[0].w, WritesLeft(l1.ring));
      if vs[0].w.Publish? {
        FirstWriteLeft(l1.ring);
        ReaderRuns(l1, vs[1..], m);
      } else {
        StartedWrite(l1, vs[1..], m);
      }
    }
  }

  lemma SameWritesLeft(r: Ring, r': Ring)
    requires r'.writer == r.writer && r'.kind == r.kind
    ensures WritesLeft(r') == WritesLeft(r)
  {
  }

  /** A whole write publishes its entry, once and as the next, whatever the reader does meanwhile. */
  lemma {:induction false} WholeWrite(l: Lane, vs: seq<Move>, m: Lane, item: Slot)
    requires l.ring.writer.WIdle? && Run(l, vs, m) && WriterPart(vs) == PutSteps(l.ring.kind, item)
    ensures m.ring.writer.WIdle? && m.log == l.log + [item] && l.taken <= m.taken
    decreases |vs|
  {
    hide CanWrite, CanRead, Write, Read, Credit, WritesLeft;
    assert vs != [];
    var l1 := Moved(l, vs[0]);
    MoveFrame(l, vs[0]);
    if vs[0].R? {
      WholeWrite(l1, vs[1..], m, item);
    } else {
      PlaceFirst(l, vs, item);
      PlaceOn(l, item);
      FirstAndRest(WriterPart(vs), vs[0].w, WriterPart(vs[1..]), Place(item), WritesLeft(l1.ring));
      StartedWrite(l1, vs[1..], m);
    }
  }

  lemma PlaceFirst(l: Lane, vs: seq<Move>, item: Slot)
    requires vs != [] && vs[0].W? && WriterPart(vs) == PutSteps(l.ring.kind, item)
    ensures vs[0] == W(Place(item))
  {
    assert WriterPart(vs)[0] == vs[0].w;
  }

  lemma PlaceOn(l: Lane, item: Slot)
    requires CanWrite(l.ring, Place(item))
    ensures var m := Write(l, Place(item));
            && m.ring.writer.WPlaced? && m.ring.writer.item == item && m.log == l.log && m.taken == l.taken
            && PutSteps(l.ring.kind, item) == [Place(item)] + WritesLeft(m.ring)
  {
  }

  lemma ReadOn(l: Lane, r: ReaderStep)
    requires CanRead(l.ring, r) && !r.Check?
    ensures var m := Read(l, r);
            && ReadsLeft(l.ring) == [r] + ReadsLeft(m.ring) && m.log == l.log
            && (if r.Take? then m.ring.reader.RIdle? && m.taken == l.taken + 1
                else !m.ring.reader.RIdle? && m.taken == l.taken)
  {
  }

  lemma FirstReadLeft(r: Ring)
    ensures ReadsLeft(r) == [] <==> r.reader.RIdle?
    ensures ReadsLeft(r) != [] ==> !ReadsLeft(r)[0].Check?
  {
  }

  lemma SameReadsLeft(r: Ring, r': Ring)
    requires r'.reader == r.reader && r'.kind == r.kind
    ensures ReadsLeft(r') == ReadsLeft(r)
  {
  }

  /** A read that has passed its check and is carried through takes one entry. */
  lemma {:induction false} StartedRead(l: Lane, vs: seq<Move>, m: Lane)
    requires !l.ring.reader.RIdle? && Run(l, vs, m) && ReaderPart(vs) == ReadsLeft(l.ring)
    ensures m.ring.reader.RIdle? && m.taken == l.taken + 1 && l.log <= m.log
    decreases |vs|
  {
    hide CanWrite, CanRead, ReadsLeft, Write, Read, Credit;
    FirstReadLeft(l.ring);
    var l1 := Moved(l, vs[0]);
    MoveFrame(l, vs[0]);
    if vs[0].W? {
      SameReadsLeft(l.ring, l1.ring);
      StartedRead(l1, vs[1..], m);
    } else {
      ReadOn(l, vs[0].r);
      FirstAndRest(ReaderPart(vs), vs[0].r, ReaderPart(vs[1..]), vs[0].r, ReadsLeft(l1.ring));
      if vs[0].r.Take? {
        FirstReadLeft(l1.ring);
        WriterRuns(l1, vs[1..], m);
      } else {
        StartedRead(l1, vs[1..], m);
      }
    }
  }

  /** A whole read, whose check passed, takes one entry whatever the writer does meanwhile. */
  lemma {:induction false} WholeRead(l: Lane, vs: seq<Move>, m: Lane)
    requires l.ring.reader.RIdle? && Run(l, vs, m) && ReaderPart(vs) == GetSteps(l.ring.kind)
    ensures m.ring.reader.RIdle? && m.taken == l.taken + 1 && l.log <= m.log
    decreases |vs|
  {
    hide CanWrite, CanRead, Write, Read, Credit, ReadsLeft;
    assert vs != [];
    var l1 := Moved(l, vs[0]);
    MoveFrame(l, vs[0]);
    if vs[0].W? {
      WholeRead(l1, vs[1..], m);
    } else {
      CheckFirst(l, vs);
      CheckOn(l);
      if l1.ring.reader.RIdle? {
        IdleCannotLocate(l1, vs[1..], m);
      } else {
        FirstAndRest(ReaderPart(vs), vs[0].r, ReaderPart(vs[1..]), Check, ReadsLeft(l1.ring));
        StartedRead(l1, vs[1..], m);
      }
    }
  }

  lemma CheckFirst(l: Lane, vs: seq<Move>)
    requires vs != [] && vs[0].R? && ReaderPart(vs) == GetSteps(l.ring.kind)
    ensures vs[0] == R(Check) && ReaderPart(vs[1..]) != [] && ReaderPart(vs[1..])[0] == Locate
  {
    assert ReaderPart(vs)[0] == vs[0].r;
    assert ReaderPart(vs)[1..] == ReaderPart(vs[1..]);
  }

  lemma CheckOn(l: Lane)
    requires CanRead(l.ring, Check)
    ensures var m := Read(l, Check);
            && m.log == l.log && m.taken == l.taken && m.ring.kind == l.ring.kind
            && (m.ring.reader.RIdle? || m.ring.reader.RSeen?)
            && (m.ring.reader.RSeen? ==> GetSteps(l.ring.kind) == [Check] + ReadsLeft(m.ring))
  {
  }

  /** After a check that found the ring empty a read cannot go on. */
  lemma {:induction false} IdleCannotLocate(l: Lane, vs: seq<Move>, m: Lane)
    requires l.ring.reader.RIdle? && Run(l, vs, m) && ReaderPart(vs) != [] && ReaderPart(vs)[0] == Locate
    ensures false
    decreases |vs|
  {
    if vs[0].W? {
      MoveFrame(l, vs[0]);
      IdleCannotLocate(Moved(l, vs[0]), vs[1..], m);
    }
  }
}
