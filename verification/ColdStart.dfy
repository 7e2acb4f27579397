/** From which contents of the shared memory the link works: the master clears `vring_size` bytes of each
    vring from its base on, and the headers of the used rings may lie behind.
 */
module ColdStart {
  import opened Words
  import opened Lanes
  import opened Channels
  import opened System
  import opened SystemProof
  import opened VringLayout
  import opened Pool
  import opened Startup

  /** The memset reaches flags and index of both used rings. */
  predicate HeadersReached(g: Config) {
    g.reach0.flags && g.reach0.idx && g.reach1.flags && g.reach1.idx
  }

  /** Nothing has been published, but the reader finds the index off its cursor. */
  predicate FalselyPending(l: Lane) {
    l.log == [] && l.ring.reader.RIdle? && l.ring.idx != l.ring.cursor
  }

  /** A core will take an entry that nobody has published, or will not ring the other. */
  predicate Misled(t: State) {
    t.noNotify0 || t.noNotify1 || FalselyPending(t.toMaster.data) || FalselyPending(t.toRemote.free)
  }

  /** Memory in which both used rings hold NO_NOTIFY and an index of 1. */
  function Stale(g: Config): State {
    var s := Cold(g);
    s.(toMaster := s.toMaster.(data := StaleLane(g.n)), toRemote := s.toRemote.(free := StaleLane(g.n)),
       noNotify0 := true, noNotify1 := true)
  }

  function StaleLane(n: nat): Lane {
    var l := EmptyLane(Used, n);
    l.(ring := l.ring.(idx := 1))
  }

  lemma StalePowered(g: Config)
    requires ConfigOk(g)
    ensures Powered(Stale(g), g)
  {
    hide ConfigOk;
    assert |EmptyLane(Used, g.n).ring.slots| == g.n == |EmptyLane(Avail, g.n).ring.slots|;
  }

  /** What the master leaves after clearing both vrings. */
  function Wiped(s: State): State {
    DoClearRing(DoClearRing(s))
  }

  lemma WipedIsReached(s: State)
    requires s.phase.Clear0?
    ensures Reaches(s, [ClearRing, ClearRing], Wiped(s)) && Wiped(s).phase.Seed0?
  {
    var s1 := DoClearRing(s);
    hide DoClearRing, ClearedChannel;
    ClearPhases(s);
    ClearPhases(s1);
    assert [ClearRing, ClearRing][1..] == [ClearRing] && [ClearRing][1..] == [];
    TwoClears(s, s1);
  }

  lemma ClearPhases(s: State)
    ensures DoClearRing(s).phase == if s.phase.Clear0? then Clear1 else Seed0
  {
    hide ClearedChannel;
  }

  lemma TwoClears(s: State, s1: State)
    requires s.phase.Clear0? && s1.phase.Clear1? && s1 == DoClearRing(s)
    ensures Reaches(s, [ClearRing] + [ClearRing], DoClearRing(s1))
  {
    hide DoClearRing;
    assert Possible(s, ClearRing) && Next(s, ClearRing) == s1;
    assert Possible(s1, ClearRing) && Next(s1, ClearRing) == DoClearRing(s1);
    var es := [ClearRing] + [ClearRing];
    assert es[1..] == [ClearRing] && [ClearRing][1..] == [];
    assert Reaches(DoClearRing(s1), [], DoClearRing(s1));
  }

  lemma StaleMisleads(g: Config)
    requires !HeadersReached(g)
    ensures Misled(Wiped(Stale(g)))
  {
  }

  /** What misleads a core breaks the invariant. */
  lemma MisledIsBroken(t: State, g: Config)
    requires Misled(t) && Inv(t, g)
    ensures !Cleared1(t)
  {
    hide ChannelInv, AnyChannel, Early, SeedOk, CoresOk, Wakeups;
    if Cleared1(t) {
      NotFalse(t.toMaster);
      NotFalse(t.toRemote);
    }
  }

  lemma NotFalse(c: Channel)
    requires ChannelInv(c)
    ensures !FalselyPending(c.data) && !FalselyPending(c.free)
  {
  }

  /** If a header is out of reach, there are contents of the memory after which, as soon as both vrings
      have been cleared, a core will take what nobody has published or will not ring the other. */
  lemma StaleHeader(g: Config)
    requires ConfigOk(g) && !HeadersReached(g)
    ensures exists s, es, t :: Powered(s, g) && Reaches(s, es, t) && Cleared1(t) && Misled(t) && !Inv(t, g)
  {
    hide ConfigOk, Powered, Reaches, Misled, HeadersReached, Stale, Wiped, Inv;
    StalePowered(g);
    StalePhase(g);
    WipedIsReached(Stale(g));
    StaleMisleads(g);
    if Inv(Wiped(Stale(g)), g) { MisledIsBroken(Wiped(Stale(g)), g); }
  }

  lemma StalePhase(g: Config)
    ensures Stale(g).phase.Clear0?
  {
  }

  /** Any contents of the memory will do if and only if the memset reaches both headers. */
  lemma AnyMemoryExactlyWhen(g: Config)
    requires ConfigOk(g)
    ensures (forall s, es, t | Powered(s, g) && Reaches(s, es, t) :: Inv(t, g)) <==> HeadersReached(g)
  {
    hide ConfigOk, Powered, Reaches, Inv;
    if HeadersReached(g) {
      forall s, es, t | Powered(s, g) && Reaches(s, es, t) ensures Inv(t, g) {
        InitInv(s, g);
        RunKeeps(s, g, es, t);
      }
    } else {
      StaleHeader(g);
    }
  }

  // ---- in terms of where the vrings lie

  /** The configuration of a link whose vrings init has placed. */
  function LinkConfig(shmem: u32, vringSize: u32, n: nat, align: u32, payloadSize: u32, clearUsed: bool): Config
    requires RingSize(n) && RingAlign(align) && vringSize % WORD == 0 && payloadSize + 16 + WORD < U32
    requires VringSizeMacro(n, align) <= vringSize && shmem + 2 * vringSize + WORD < U32
  {
    var reach := RegionReach(shmem, vringSize, n, align);
    Config(n, payloadSize, BufferSize(payloadSize), clearUsed, reach.0, reach.1)
  }

  /** The padding in front of the used ring of a vring on p that still leaves its header in reach. */
  predicate InReach(n: nat, p: u32, align: u32)
    requires 0 < align && p + 18 * n + 4 < U32
  {
    Padding(p + 18 * n + 4, align) <= Padding(18 * n + 8, align) + 8 * n + 14
  }

  /** On a region that init has divided, the link works from any contents of the memory if and only if
      the paddings of both vrings are in reach. */
  lemma AnyMemoryOnRegion(shmem: u32, vringSize: u32, n: nat, align: u32, payloadSize: u32, clearUsed: bool)
    requires RingSize(n) && RingAlign(align) && vringSize % WORD == 0 && payloadSize + 16 + WORD < U32
    requires VringSizeMacro(n, align) <= vringSize && shmem + 2 * vringSize + WORD < U32 && 0 < payloadSize
    ensures var r, g := Placed(shmem, vringSize), LinkConfig(shmem, vringSize, n, align, payloadSize, clearUsed);
            && InsideOwnPart(n, r.rvring, align) && InsideOwnPart(n, r.tvring, align)
            && ((forall s, es, t | Powered(s, g) && Reaches(s, es, t) :: Inv(t, g))
                <==> InReach(n, r.rvring, align) && InReach(n, r.tvring, align))
  {
    hide Powered, Reaches, Inv, Placed, VringSizeMacro, VringSize, AlignUp, IsPow2, BufferSize;
    PartsApart(shmem, vringSize, n, align);
    var r, g := Placed(shmem, vringSize), LinkConfig(shmem, vringSize, n, align, payloadSize, clearUsed);
    HeaderReachedExactlyWhen(n, r.rvring, align);
    HeaderReachedExactlyWhen(n, r.tvring, align);
    AnyMemoryExactlyWhen(g);
  }
}
