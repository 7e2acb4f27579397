/** One direction of a link: a vring, its buffers, and the two cores' use of them.

    The producer takes empty buffers from the free lane, fills them and publishes them on the data
    lane; the consumer takes them from the data lane and gives them back on the free lane. For
    vring 1 (master to remote) the avail ring is the data lane and the used ring the free lane; for
    vring 0 (remote to master) it is the other way round. Both start with an empty data lane and a
    free lane that the master has seeded with all descriptors.
 */
module Channels {
  import opened Words
  import opened Lanes
  import VringLayout

  /** `struct rpmsg_std_msg`: header and payload area of one buffer. */
  datatype Buffer = Buffer(src: u32, dst: u32, idx: u16, len: u16, flags: u16, payload: seq<u8>)

  /** `struct vring_desc`; flags and next are written and never read. */
  datatype Desc = Desc(addr: nat, len: nat)

  /** What the receive callback is handed: source, destination, payload bytes. */
  datatype Msg = Msg(src: u32, dst: u32, bytes: seq<u8>)

  /** Ring size, RL_BUFFER_PAYLOAD_SIZE, RL_BUFFER_SIZE, RL_CLEAR_USED_BUFFERS, and how much of the
      used rings of vring 0 and 1 the master clears. */
  datatype Config = Config(n: nat, payloadSize: nat, bufferSize: nat, clearUsed: bool,
                           reach0: VringLayout.Reach, reach1: VringLayout.Reach)

  const HEADER_SIZE := 16  // sizeof(struct rpmsg_std_hdr)

  ghost predicate ConfigOk(g: Config) {
    RingSize(g.n) && 0 < g.payloadSize && g.payloadSize + HEADER_SIZE <= g.bufferSize < U32
  }

  function Capacity(g: Config): int {
    g.bufferSize - HEADER_SIZE
  }

  /** The message that a buffer holds: `hdr.len` bytes of payload. */
  function View(b: Buffer): Msg {
    Msg(b.src, b.dst, if b.len <= |b.payload| then b.payload[..b.len] else b.payload)
  }

  function Zeroed(g: Config): Buffer
    requires HEADER_SIZE <= g.bufferSize
  {
    Buffer(0, 0, 0, 0, 0, seq(g.bufferSize - HEADER_SIZE, i => 0))
  }

  /** A channel. A descriptor index is in exactly one place: pending on a lane, inside a lane write
      in progress, local to a call of the producer (`pLocal`) or the consumer (`qLocal`), or handed
      to the application (`pApp` by the transmit allocation, `qApp` by a callback that answered
      hold). For the latter two the code keeps the index in the buffer header only. `pLen` and
      `qLen` are the lengths that the calls in progress got with their buffers. `sent` and
      `delivered` are histories. */
  datatype Channel = Channel(
    cfg: Config,
    data: Lane,
    free: Lane,
    desc: seq<Desc>,
    mem: map<nat, Buffer>,
    pLocal: multiset<nat>,
    pApp: multiset<nat>,
    qLocal: multiset<nat>,
    qApp: multiset<nat>,
    pLen: map<nat, nat>,
    qLen: map<nat, nat>,
    sent: seq<Msg>,
    delivered: seq<Msg>)

  function Opposite(kind: Kind): Kind {
    if kind.Avail? then Used else Avail
  }

  function EmptyChannel(g: Config, dataKind: Kind): Channel {
    Channel(g, EmptyLane(dataKind, g.n), EmptyLane(Opposite(dataKind), g.n), [], map[],
            multiset{}, multiset{}, multiset{}, multiset{}, map[], map[], [], [])
  }

  // ---- who has which descriptor

  function Ids(s: seq<Slot>): (r: seq<nat>)
    ensures |r| == |s| && forall i | 0 <= i < |s| :: r[i] == s[i].id
  {
    seq(|s|, i requires 0 <= i < |s| => s[i].id)
  }

  function PendingIds(l: Lane): multiset<nat> {
    multiset(Ids(Pending(l)))
  }

  function WriterIds(l: Lane): multiset<nat> {
    if l.ring.writer.WIdle? then multiset{} else multiset{l.ring.writer.item.id}
  }

  function LaneIds(l: Lane): multiset<nat> {
    PendingIds(l) + WriterIds(l)
  }

  function Held(c: Channel): multiset<nat> {
    c.pLocal + c.pApp + c.qLocal + c.qApp
  }

  function Total(c: Channel): multiset<nat> {
    LaneIds(c.data) + LaneIds(c.free) + Held(c)
  }

  /** 0..m, each once. */
  function AllIds(m: nat): (r: multiset<nat>)
    ensures |r| == m && forall d: nat :: r[d] == if d < m then 1 else 0
  {
    if m == 0 then multiset{} else AllIds(m - 1) + multiset{m - 1}
  }

  // ---- invariant

  ghost predicate LanesOk(c: Channel) {
    && ConfigOk(c.cfg)
    && LaneInv(c.data) && LaneInv(c.free)
    && c.data.ring.n == c.cfg.n == c.free.ring.n
    && c.data.ring.kind != c.free.ring.kind
  }

  ghost predicate BufferOk(g: Config, b: Buffer) {
    |b.payload| == Capacity(g) && b.len <= Capacity(g)
  }

  /** Descriptors are in the table once, point to buffers, and all have the length RL_BUFFER_SIZE. */
  ghost predicate DescOk(c: Channel) {
    && |c.desc| <= c.cfg.n
    && (forall i | 0 <= i < |c.desc| :: c.desc[i].len == c.cfg.bufferSize && c.desc[i].addr in c.mem)
    && (forall i, j | 0 <= i < j < |c.desc| :: c.desc[i].addr != c.desc[j].addr)
    && (forall a | a in c.mem :: BufferOk(c.cfg, c.mem[a]))
  }

  /** Every descriptor that has been set up is in exactly one place. */
  ghost predicate Conserved(c: Channel) {
    Total(c) == AllIds(|c.desc|)
  }

  function ItemLen(kind: Kind, len: nat): nat {
    if kind.Used? then len else 0
  }

  ghost predicate LaneLens(l: Lane, len: nat) {
    && (forall k | 0 <= k < |l.log| :: l.log[k].len == ItemLen(l.ring.kind, len))
    && (!l.ring.writer.WIdle? ==> l.ring.writer.item.len == ItemLen(l.ring.kind, len))
  }

  ghost predicate LensOk(c: Channel) {
    && LaneLens(c.data, c.cfg.bufferSize) && LaneLens(c.free, c.cfg.bufferSize)
    && (forall d | d in c.pLocal :: d in c.pLen && c.pLen[d] == c.cfg.bufferSize)
    && (forall d | d in c.qLocal :: d in c.qLen && c.qLen[d] == c.cfg.bufferSize)
  }

  /** The buffer behind a descriptor index. */
  predicate HasBuffer(c: Channel, d: nat) {
    d < |c.desc| && c.desc[d].addr in c.mem
  }

  function BufferOf(c: Channel, d: nat): Buffer {
    if HasBuffer(c, d) then c.mem[c.desc[d].addr] else Buffer(0, 0, 0, 0, 0, [])
  }

  /** The header of a buffer handed to the application still names its descriptor. */
  ghost predicate Stashed(c: Channel) {
    && (forall d | d in c.pApp :: HasBuffer(c, d) && BufferOf(c, d).idx == d)
    && (forall d | d in c.qApp :: HasBuffer(c, d) && BufferOf(c, d).idx == d)
  }

  /** What has been taken is what was sent, and what is pending is still in its buffer. */
  ghost predicate Fifo(c: Channel) {
    && |c.sent| == |c.data.log| && c.data.taken <= |c.data.log|
    && c.delivered == c.sent[..c.data.taken]
    && (forall k | c.data.taken <= k < |c.data.log| ::
          HasBuffer(c, c.data.log[k].id) && View(BufferOf(c, c.data.log[k].id)) == c.sent[k])
  }

  ghost predicate ChannelInv(c: Channel) {
    LanesOk(c) && DescOk(c) && Conserved(c) && LensOk(c) && Stashed(c) && Fifo(c)
  }

  /** A channel at its start, its rings empty whatever their slots hold. */
  ghost predicate FreshChannel(c: Channel, g: Config, dataKind: Kind) {
    && c == EmptyChannel(g, dataKind).(data := c.data, free := c.free)
    && FreshLane(c.data, dataKind, g.n) && FreshLane(c.free, Opposite(dataKind), g.n)
  }

  lemma FreshChannelInv(c: Channel, g: Config, dataKind: Kind)
    requires ConfigOk(g) && FreshChannel(c, g, dataKind)
    ensures ChannelInv(c)
  {
    hide LaneInv, FreshLane;
    FreshLaneInv(c.data, dataKind, g.n);
    FreshLaneInv(c.free, Opposite(dataKind), g.n);
    FreshLog(c.data, dataKind, g.n);
    FreshLog(c.free, Opposite(dataKind), g.n);
    assert Ids(Pending(c.data)) == [] && Ids(Pending(c.free)) == [];
    assert Total(c) == multiset{};
  }

  lemma FreshLog(l: Lane, kind: Kind, n: nat)
    requires FreshLane(l, kind, n)
    ensures l.log == [] && l.taken == 0 && l.ring.writer.WIdle? && l.ring.reader.RIdle?
  {
  }

  // ---- consequences of conservation

  lemma Ids2(s: seq<Slot>, t: seq<Slot>)
    ensures Ids(s + t) == Ids(s) + Ids(t)
  {
  }

  /** A descriptor index found anywhere is one of the table. */
  lemma EverywhereInTable(c: Channel, d: nat)
    requires Conserved(c) && d in Total(c)
    ensures d < |c.desc|
  {
  }

  lemma PendingInTotal(c: Channel, l: Lane, k: nat)
    requires Conserved(c) && (l == c.data || l == c.free)
    requires l.taken <= k < |l.log|
    ensures l.log[k].id in PendingIds(l) && l.log[k].id < |c.desc|
  {
    assert Pending(l)[k - l.taken] == l.log[k];
    assert Ids(Pending(l))[k - l.taken] == l.log[k].id;
    hide Pending, Conserved;
    assert l.log[k].id in PendingIds(l);
    LaneInTotal(c, l, l.log[k].id);
    EverywhereInTable(c, l.log[k].id);
  }

  lemma LaneInTotal(c: Channel, l: Lane, d: nat)
    requires (l == c.data || l == c.free) && d in PendingIds(l)
    ensures d in Total(c)
  {
    hide PendingIds;
  }

  /** A descriptor held by either core, or being written, is not pending on a lane. */
  lemma HeldIsNotPending(c: Channel, d: nat, k: nat)
    requires Conserved(c) && d in Held(c)
    requires c.data.taken <= k < |c.data.log|
    ensures c.data.log[k].id != d
  {
    PendingInTotal(c, c.data, k);
    assert Total(c)[d] <= 1;
  }

  /** The credit that the code relies on instead of a test for a full ring: whoever holds a
      descriptor finds fewer than n pending on either lane. */
  lemma HolderHasCredit(c: Channel, d: nat)
    requires LanesOk(c) && DescOk(c) && Conserved(c) && d in Held(c)
    ensures |c.data.log| < c.data.taken + c.cfg.n
    ensures |c.free.log| < c.free.taken + c.cfg.n
  {
    assert |Total(c)| == |c.desc|;
    assert |PendingIds(c.data)| == |Pending(c.data)|;
    assert |PendingIds(c.free)| == |Pending(c.free)|;
    assert |Held(c)| >= 1 by {
      assert multiset{d} <= Held(c);
      assert Held(c) == multiset{d} + (Held(c) - multiset{d});
    }
  }
}
