/** A link: two cores, two channels, doorbells, and the initialisation of both sides, as one state
    machine over single steps.

    Vring 0 carries messages from the remote to the master (`toMaster`), vring 1 from the master to
    the remote (`toRemote`). Each core has one doorbell bit per vring; ringing a bit that is set
    changes nothing. The interrupt handler reads both bits once, then clears and serves the first
    and then the second. Calls that write one ring are assumed not to overlap on one core; calls of
    different kinds on one core, and everything across the cores, interleave freely.
 */
module System {
  import opened Lanes
  import opened Channels
  import opened ChannelSteps
  import opened VringLayout

  datatype Side = Master | Remote

  /** How far the master's initialisation has got: clearing vring 0 and 1, seeding vring 0 and 1,
      setting its link state, ringing the remote. */
  datatype Phase = Clear0 | Clear1 | Seed0 | Seed1 | SetLink | FirstKick | Ready

  /** Progress of a core inside the interrupt handler; f0 and f1 are the bits as they were read. */
  datatype Isr = Idle | Bit0(f0: bool, f1: bool) | Serving0(f1: bool) | Bit1(f1: bool) | Serving1

  /** One core: interrupts installed, `link_state`, its doorbell bits, its interrupt handler, whether
      a send of its is between publishing and kicking, and whether it has returned a buffer since it
      last told the peer so. */
  datatype Core = Core(up: bool, link: bool, bell0: bool, bell1: bool, isr: Isr, kickDue: bool, freed: bool)

  /** noNotify0/1: `used->flags & VRING_USED_F_NO_NOTIFY` of the vrings. */
  datatype State = State(phase: Phase, toMaster: Channel, toRemote: Channel,
                         noNotify0: bool, noNotify1: bool, master: Core, remote: Core)

  datatype Event =
    // initialisation
    | ClearRing                                     // memset of a vring, virtqueue_create
    | SeedBuffer(addr: nat)
    | SeedWrite(write: WriterStep)
    | SeedDone
    | MasterLink
    | MasterKick
    | RemoteInit
    // transmitting side
    | Transmit(side: Side, step: Step)
    | Kick(side: Side)
    // receiving side
    | Consume(side: Side, step: Step)
    | NotifyFreed(side: Side)                       // RL_ALLOW_CONSUMED_BUFFERS_NOTIFICATION
    // interrupts
    | IsrEnter(side: Side)
    | IsrTest(side: Side)
    | TxCallback(side: Side)
    | DrainEnd(side: Side)                          // vq_rx found the ring empty

  // ---- parts of the state by side

  function CoreOf(s: State, side: Side): Core {
    if side.Master? then s.master else s.remote
  }

  function SetCore(s: State, side: Side, k: Core): State {
    if side.Master? then s.(master := k) else s.(remote := k)
  }

  function Other(side: Side): Side {
    if side.Master? then Remote else Master
  }

  /** The channel a side transmits on; its vring number is 1 for the master and 0 for the remote. */
  function TxChannel(s: State, side: Side): Channel {
    if side.Master? then s.toRemote else s.toMaster
  }

  function RxChannel(s: State, side: Side): Channel {
    TxChannel(s, Other(side))
  }

  function SetTx(s: State, side: Side, c: Channel): State {
    if side.Master? then s.(toRemote := c) else s.(toMaster := c)
  }

  function SetRx(s: State, side: Side, c: Channel): State {
    SetTx(s, Other(side), c)
  }

  /** A ring of the peer on bit v. */
  function DoRing(k: Core, v: nat): Core {
    if v == 0 then k.(bell0 := true) else k.(bell1 := true)
  }

  /** `virtqueue_kick` on vring v by a side: ring the peer's bit v unless told not to. */
  function KickVring(s: State, side: Side, v: nat): State {
    if (if v == 0 then s.noNotify0 else s.noNotify1) then s else
    SetCore(s, Other(side), DoRing(CoreOf(s, Other(side)), v))
  }

  /** The master receives on vector 0 and the remote on vector 1. */
  predicate Draining(k: Core, side: Side) {
    if side.Master? then k.isr.Serving0? else k.isr.Serving1?
  }

  predicate InTxCallback(k: Core, side: Side) {
    if side.Master? then k.isr.Serving1? else k.isr.Serving0?
  }

  function RxBell(k: Core, side: Side): bool {
    if side.Master? then k.bell0 else k.bell1
  }

  function IsrAfter(i: Isr): Isr {
    if i.Serving0? then Bit1(i.f1) else Idle
  }

  predicate ProducerStep(t: Step) {
    t.Alloc? || t.HandOut? || t.Header? || t.Copy? || t.AppWrite? || t.Send? || t.SendNoCopy? || t.DataWrite?
  }

  predicate ConsumerStep(t: Step) {
    t.Receive? || t.Hold? || t.Free? || t.Release? || t.FreeWrite?
  }

  // ---- steps

  /** The master's own functions can be called once its init function has returned. */
  predicate Running(s: State, side: Side) {
    CoreOf(s, side).up && (side.Master? ==> s.phase.Ready?)
  }

  predicate CanTransmit(s: State, side: Side, t: Step) {
    var k := CoreOf(s, side);
    && Running(s, side) && ProducerStep(t) && Enabled(TxChannel(s, side), t)
    // send, alloc_tx_buffer and send_nocopy refuse while the link is down
    && (t == Alloc(Check) || t.SendNoCopy? ==> k.link)
    // vq_tx and kick run under one lock
    && (t.Send? || t.SendNoCopy? ==> !k.kickDue)
  }

  predicate CanConsume(s: State, side: Side, t: Step) {
    var k := CoreOf(s, side);
    && Running(s, side) && ConsumerStep(t) && Enabled(RxChannel(s, side), t)
    // vq_rx is called by the drain loop only, which returns or holds a message before the next
    && (t.Receive? || t.Hold? || t.Free? ==> Draining(k, side))
    && (t == Receive(Check) ==> |RxChannel(s, side).qLocal| == 0)
    // before Ready a free-ring write in progress is the master's seeding, not this core's
    && (t.FreeWrite? ==> s.phase.Ready?)
  }

  predicate Seeding(s: State) {
    s.phase.Seed0? || s.phase.Seed1?
  }

  function SeedChannel(s: State): Channel {
    if s.phase.Seed0? then s.toMaster else s.toRemote
  }

  function SetSeed(s: State, c: Channel): State {
    if s.phase.Seed0? then s.(toMaster := c) else s.(toRemote := c)
  }

  predicate Possible(s: State, e: Event) {
    match e {
      case ClearRing => s.phase.Clear0? || s.phase.Clear1?
      case SeedBuffer(a) => Seeding(s) && CanSeed(SeedChannel(s), a)
      case SeedWrite(w) => Seeding(s) && !w.Place? && CanWrite(SeedChannel(s).free.ring, w)
      case SeedDone =>
        Seeding(s) && |SeedChannel(s).desc| >= SeedChannel(s).cfg.n && SeedChannel(s).free.ring.writer.WIdle?
      case MasterLink => s.phase.SetLink?
      case MasterKick => s.phase.FirstKick?
      case RemoteInit => !s.remote.up
      case Transmit(side, t) => CanTransmit(s, side, t)
      case Kick(side) => CoreOf(s, side).kickDue
      case Consume(side, t) => CanConsume(s, side, t)
      case NotifyFreed(side) => CoreOf(s, side).freed
      case IsrEnter(side) =>
        var k := CoreOf(s, side);
        k.up && k.isr.Idle? && (k.bell0 || k.bell1)
      case IsrTest(side) => CoreOf(s, side).isr.Bit0? || CoreOf(s, side).isr.Bit1?
      case TxCallback(side) => InTxCallback(CoreOf(s, side), side)
      case DrainEnd(side) => CanEnd(s, side)
    }
  }

  predicate CanEnd(s: State, side: Side) {
    var c := RxChannel(s, side);
    && Draining(CoreOf(s, side), side) && |c.qLocal| == 0
    && c.data.ring.reader.RIdle? && c.data.ring.idx == c.data.ring.cursor
  }

  /** Clearing the shared part of a ring: an avail ring as a whole, a used ring as far as the memset
      reaches. */
  function ClearedLane(l: Lane, r: Reach): Lane {
    if l.ring.kind.Avail? then l.(ring := l.ring.(slots := seq(l.ring.n, i => Slot(0, 0)), idx := 0))
    else l.(ring := l.ring.(slots := Kept(l.ring.slots, r.entries), idx := if r.idx then 0 else l.ring.idx))
  }

  function ClearedChannel(c: Channel, r: Reach): Channel {
    c.(data := ClearedLane(c.data, r), free := ClearedLane(c.free, r))
  }

  /** The handler reads both bits, */
  function DoEnter(k: Core): Core {
    k.(isr := Bit0(k.bell0, k.bell1))
  }

  /** tests one of them, and clears it if it was set, */
  function DoTest(k: Core): Core {
    match k.isr {
      case Bit0(f0, f1) => if f0 then k.(bell0 := false, isr := Serving0(f1)) else k.(isr := Bit1(f1))
      case Bit1(f1) => if f1 then k.(bell1 := false, isr := Serving1) else k.(isr := Idle)
      case _ => k
    }
  }

  /** and has served it. */
  function DoServed(k: Core): Core {
    k.(isr := IsrAfter(k.isr))
  }

  function DoTransmit(s: State, side: Side, t: Step): State
    requires CanTransmit(s, side, t)
  {
    var s1 := SetTx(s, side, Apply(TxChannel(s, side), t));
    if t == DataWrite(Publish) then SetCore(s1, side, CoreOf(s, side).(kickDue := true)) else s1
  }

  function DoConsume(s: State, side: Side, t: Step): State
    requires CanConsume(s, side, t)
  {
    var s1 := SetRx(s, side, Apply(RxChannel(s, side), t));
    if t == FreeWrite(Publish) then SetCore(s1, side, CoreOf(s, side).(freed := true)) else s1
  }

  function DoKick(s: State, side: Side): State {
    var s1 := KickVring(s, side, if side.Master? then 1 else 0);
    SetCore(s1, side, CoreOf(s1, side).(kickDue := false))
  }

  function DoNotifyFreed(s: State, side: Side): State {
    var s1 := KickVring(s, side, if side.Master? then 0 else 1);
    SetCore(s1, side, CoreOf(s1, side).(freed := false))
  }

  function DoIsrEnter(s: State, side: Side): State {
    SetCore(s, side, DoEnter(CoreOf(s, side)))
  }

  function DoIsrTest(s: State, side: Side): State {
    SetCore(s, side, DoTest(CoreOf(s, side)))
  }

  function DoTxCallback(s: State, side: Side): State {
    SetCore(s, side, DoServed(CoreOf(s, side)).(link := true))
  }

  function DoDrainEnd(s: State, side: Side): State {
    SetCore(s, side, DoServed(CoreOf(s, side)))
  }

  function DoClearRing(s: State): State {
    if s.phase.Clear0? then
      var r := s.toMaster.cfg.reach0;
      s.(toMaster := ClearedChannel(s.toMaster, r), noNotify0 := s.noNotify0 && !r.flags, phase := Clear1)
    else
      var r := s.toRemote.cfg.reach1;
      s.(toRemote := ClearedChannel(s.toRemote, r), noNotify1 := s.noNotify1 && !r.flags, phase := Seed0)
  }

  function DoSeedDone(s: State): State {
    s.(phase := if s.phase.Seed0? then Seed1 else SetLink)
  }

  function DoMasterLink(s: State): State {
    s.(phase := FirstKick, master := s.master.(link := true, up := true))
  }

  function DoMasterKick(s: State): State {
    KickVring(s, Master, 0).(phase := Ready)
  }

  function DoRemoteInit(s: State): State {
    s.(remote := s.remote.(up := true, link := false))
  }

  function Next(s: State, e: Event): State
    requires Possible(s, e)
  {
    match e {
      case ClearRing => DoClearRing(s)
      case SeedBuffer(a) => SetSeed(s, DoSeed(SeedChannel(s), a))
      case SeedWrite(w) => SetSeed(s, DoFreeWrite(SeedChannel(s), w))
      case SeedDone => DoSeedDone(s)
      case MasterLink => DoMasterLink(s)
      case MasterKick => DoMasterKick(s)
      case RemoteInit => DoRemoteInit(s)
      case Transmit(side, t) => DoTransmit(s, side, t)
      case Kick(side) => DoKick(s, side)
      case Consume(side, t) => DoConsume(s, side, t)
      case NotifyFreed(side) => DoNotifyFreed(s, side)
      case IsrEnter(side) => DoIsrEnter(s, side)
      case IsrTest(side) => DoIsrTest(s, side)
      case TxCallback(side) => DoTxCallback(s, side)
      case DrainEnd(side) => DoDrainEnd(s, side)
    }
  }

  // ---- initial states: shared memory holds anything

  ghost predicate AnyLane(l: Lane, kind: Kind, n: nat) {
    && l == EmptyLane(kind, n).(ring := EmptyRing(kind, n).(slots := l.ring.slots, idx := l.ring.idx))
    && |l.ring.slots| == n
  }

  ghost predicate AnyChannel(c: Channel, g: Config, dataKind: Kind) {
    && AnyLane(c.data, dataKind, g.n)
    && AnyLane(c.free, Opposite(dataKind), g.n)
    && c == EmptyChannel(g, dataKind).(data := c.data, free := c.free)
  }

  const ASLEEP := Core(false, false, false, false, Idle, false, false)

  ghost predicate Powered(s: State, g: Config) {
    && ConfigOk(g) && s.phase.Clear0?
    && AnyChannel(s.toMaster, g, Used) && AnyChannel(s.toRemote, g, Avail)
    && s.master == ASLEEP && s.remote == ASLEEP
  }

  /** What the memset does not reach of the header of a used ring is zero already. */
  predicate Clean(r: Reach, l: Lane, noNotify: bool) {
    (r.idx || l.ring.idx == 0) && (r.flags || !noNotify)
  }

  /** The runs that the link can work in start here. When the memset reaches both headers, as it does
      on aligned vrings, this is any contents of the memory. */
  ghost predicate Init(s: State, g: Config) {
    && Powered(s, g)
    && Clean(g.reach0, s.toMaster.data, s.noNotify0) && Clean(g.reach1, s.toRemote.free, s.noNotify1)
  }

  // ---- invariant

  /** Both vrings have been cleared. */
  predicate Cleared0(s: State) { !s.phase.Clear0? }

  predicate Cleared1(s: State) { !s.phase.Clear0? && !s.phase.Clear1? }

  ghost predicate ChannelsOk(s: State, g: Config) {
    && s.toMaster.cfg == g == s.toRemote.cfg && ConfigOk(g)
    && (if Cleared0(s) then ChannelInv(s.toMaster) && !s.noNotify0
        else AnyChannel(s.toMaster, g, Used) && Clean(g.reach0, s.toMaster.data, s.noNotify0))
    && (if Cleared1(s) then ChannelInv(s.toRemote) && !s.noNotify1
        else AnyChannel(s.toRemote, g, Avail) && Clean(g.reach1, s.toRemote.free, s.noNotify1))
    && s.toMaster.data.ring.kind.Used? && s.toRemote.data.ring.kind.Avail?
  }

  /** Nothing but seeding has happened on a channel. */
  ghost predicate Unused(c: Channel) {
    && c.data.ring.writer.WIdle? && c.data.ring.reader.RIdle? && c.data.log == [] && c.data.taken == 0
    && c.free.ring.reader.RIdle? && c.free.taken == 0
    && |Held(c)| == 0
  }

  /** A core that has done nothing after its init. */
  predicate Still(k: Core) {
    !k.bell0 && !k.bell1 && k.isr.Idle? && !k.kickDue && !k.freed
  }

  /** Until the master is ready both channels are unused and the remote's link is down. */
  ghost predicate Early(s: State) {
    !s.phase.Ready? ==>
      && Unused(s.toMaster) && Unused(s.toRemote)
      && Still(s.master) && Still(s.remote) && !s.remote.link
  }

  ghost predicate Seeded(c: Channel) {
    |c.desc| == c.cfg.n && c.free.ring.writer.WIdle?
  }

  ghost predicate SeedOk(s: State) {
    && (s.phase.Clear0? || s.phase.Clear1? || s.phase.Seed0? ==> s.toRemote.desc == [])
    && (s.phase.Seed0? ==> s.toRemote.free.ring.writer.WIdle?)
    && (s.phase.Clear0? || s.phase.Clear1? ==> s.toMaster.desc == [])
    && (s.phase.Seed1? || s.phase.SetLink? || s.phase.FirstKick? ==> Seeded(s.toMaster))
    && (s.phase.SetLink? || s.phase.FirstKick? ==> Seeded(s.toRemote))
    && (s.phase.Ready? ==> |s.toMaster.desc| == s.toMaster.cfg.n && |s.toRemote.desc| == s.toRemote.cfg.n)
  }

  /** A core whose interrupts are not installed has an idle handler, no link, nothing to kick. */
  predicate UpOk(k: Core) {
    !k.up ==> k.isr.Idle? && !k.link && !k.kickDue && !k.freed
  }

  ghost predicate CoresOk(s: State) {
    && UpOk(s.master) && UpOk(s.remote)
    && (s.phase.FirstKick? || s.phase.Ready? ==> s.master.up && s.master.link)
    && (s.remote.link ==> s.phase.Ready?)
  }

  /** The receive ring is read, and a message held locally, only inside the drain loop. */
  ghost predicate DrainOk(c: Channel, k: Core, side: Side) {
    !c.data.ring.reader.RIdle? || |c.qLocal| > 0 ==> Draining(k, side)
  }

  /** No lost wakeup: a non-empty receive ring has its doorbell set, or is being drained, or the
      sender has published and will kick. */
  ghost predicate Awake(c: Channel, receiver: Core, side: Side, sender: Core) {
    Pending(c.data) != [] ==> RxBell(receiver, side) || Draining(receiver, side) || sender.kickDue
  }

  ghost predicate Wakeups(s: State) {
    && DrainOk(s.toMaster, s.master, Master) && DrainOk(s.toRemote, s.remote, Remote)
    && Awake(s.toMaster, s.master, Master, s.remote) && Awake(s.toRemote, s.remote, Remote, s.master)
  }

  ghost predicate Inv(s: State, g: Config) {
    ChannelsOk(s, g) && Early(s) && SeedOk(s) && CoresOk(s) && Wakeups(s)
  }

  // ---- runs

  /** The events es, one after the other, lead from s to t. */
  ghost predicate Reaches(s: State, es: seq<Event>, t: State)
    decreases |es|
  {
    if es == [] then t == s
    else Possible(s, es[0]) && Reaches(Next(s, es[0]), es[1..], t)
  }

  /** t is reached by some run from an initial state. */
  ghost predicate Reachable(t: State, g: Config) {
    exists s, es :: Init(s, g) && Reaches(s, es, t)
  }
}
