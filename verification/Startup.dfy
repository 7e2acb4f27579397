/** How a link starts: the master's own steps complete its initialisation, and after that the remote's
    handler alone brings its link up.
 */
module Startup {
  import opened Lanes
  import opened Channels
  import opened ChannelSteps
  import opened System
  import opened SystemProof
  import opened LinkTheorems
  import opened Progress

  // ---- initialisation completes

  function HighestAddr(t: seq<Desc>): (a: nat)
    ensures forall i | 0 <= i < |t| :: t[i].addr <= a
  {
    if t == [] then 0 else
    var rest := HighestAddr(t[..|t| - 1]);
    if rest < t[|t| - 1].addr then t[|t| - 1].addr else rest
  }

  /** The master's next step; a new buffer lies behind those set up so far. */
  function NextInit(s: State): Event {
    match s.phase
    case Clear0 => ClearRing
    case Clear1 => ClearRing
    case SetLink => MasterLink
    case FirstKick => MasterKick
    case _ =>
      var c := SeedChannel(s);
      if !c.free.ring.writer.WIdle? then SeedWrite(NextWrite(c.free.ring))
      else if |c.desc| < c.cfg.n then SeedBuffer(HighestAddr(c.desc) + 1)
      else SeedDone
  }

  function PhasesLeft(p: Phase): nat {
    match p
    case Clear0 => 6
    case Clear1 => 5
    case Seed0 => 4
    case Seed1 => 3
    case SetLink => 2
    case FirstKick => 1
    case Ready => 0
  }

  /** Buffers that the current phase still has to set up, and accesses left of the one in progress. */
  function BuffersLeft(s: State): nat {
    var c := SeedChannel(s);
    if Seeding(s) && |c.desc| <= c.cfg.n then c.cfg.n - |c.desc| else 0
  }

  function AccessesLeft(s: State): nat {
    if Seeding(s) then WriteLeft(SeedChannel(s).free.ring.writer) else 0
  }

  predicate InitCloser(s: State, s': State) {
    || PhasesLeft(s'.phase) < PhasesLeft(s.phase)
    || (s'.phase == s.phase && BuffersLeft(s') < BuffersLeft(s))
    || (s'.phase == s.phase && BuffersLeft(s') == BuffersLeft(s) && AccessesLeft(s') < AccessesLeft(s))
  }

  lemma SeedingChannel(s: State, g: Config)
    requires Inv(s, g) && Seeding(s)
    ensures ChannelInv(SeedChannel(s)) && |SeedChannel(s).desc| <= SeedChannel(s).cfg.n
    ensures RingWf(SeedChannel(s).free.ring) && HEADER_SIZE <= SeedChannel(s).cfg.bufferSize
  {
    hide ChannelInv, AnyChannel, Early, SeedOk, CoresOk, Wakeups;
    assert ChannelInv(SeedChannel(s));
    SeedParts(SeedChannel(s));
  }

  lemma SeedParts(c: Channel)
    requires ChannelInv(c)
    ensures |c.desc| <= c.cfg.n && RingWf(c.free.ring) && HEADER_SIZE <= c.cfg.bufferSize
  {
  }

  lemma SeedStepCloser(s: State, g: Config)
    requires Inv(s, g) && Seeding(s)
    ensures Possible(s, NextInit(s)) && InitCloser(s, Next(s, NextInit(s)))
  {
    hide Inv, ChannelInv, RingWf, LaneInv;
    SeedingChannel(s, g);
    var c := SeedChannel(s);
    if !c.free.ring.writer.WIdle? {
      SeedWriteCloser(s, c);
    } else if |c.desc| < c.cfg.n {
      SeedBufferCloser(s, c, HighestAddr(c.desc) + 1);
    }
  }

  lemma SeedWriteCloser(s: State, c: Channel)
    requires Seeding(s) && c == SeedChannel(s) && RingWf(c.free.ring) && !c.free.ring.writer.WIdle?
    ensures var e := SeedWrite(NextWrite(c.free.ring)); Possible(s, e) && InitCloser(s, Next(s, e))
  {
  }

  lemma SeedBufferCloser(s: State, c: Channel, a: nat)
    requires Seeding(s) && c == SeedChannel(s) && RingWf(c.free.ring) && c.free.ring.writer.WIdle?
    requires |c.desc| < c.cfg.n && HEADER_SIZE <= c.cfg.bufferSize && a > HighestAddr(c.desc)
    ensures Possible(s, SeedBuffer(a)) && InitCloser(s, Next(s, SeedBuffer(a)))
  {
  }

  lemma InitStepCloser(s: State, g: Config)
    requires Inv(s, g) && !s.phase.Ready?
    ensures var e := NextInit(s); Possible(s, e) && InitCloser(s, Next(s, e)) && Next(s, e).remote.up == s.remote.up
  {
    hide Inv;
    if Seeding(s) {
      hide InitCloser, NextInit, Possible, Next;
      SeedStepCloser(s, g);
      RemoteSame(s, NextInit(s));
    }
  }

  lemma RemoteSame(s: State, e: Event)
    requires Possible(s, e) && (e.SeedBuffer? || e.SeedWrite? || e.SeedDone?)
    ensures Next(s, e).remote == s.remote
  {
    hide CanSeed, CanWrite, DoSeed, DoFreeWrite;
  }

  /** A step of the master's init function. */
  predicate OfInit(e: Event) {
    e.ClearRing? || e.SeedBuffer? || e.SeedWrite? || e.SeedDone? || e.MasterLink? || e.MasterKick?
  }

  lemma NextIsOfInit(s: State)
    requires !s.phase.Ready?
    ensures OfInit(NextInit(s))
  {
  }

  /** The master's init never gets stuck: its own steps lead to the end from any state on the way. */
  lemma {:induction false} InitCompletes(s: State, g: Config) returns (es: seq<Event>, t: State)
    requires Inv(s, g)
    ensures Reaches(s, es, t) && (forall e <- es :: OfInit(e))
    ensures t.phase.Ready? && t.remote.up == s.remote.up
    decreases PhasesLeft(s.phase), BuffersLeft(s), AccessesLeft(s)
  {
    hide Inv, Possible, Next, NextInit, BuffersLeft, AccessesLeft, OfInit;
    if s.phase.Ready? {
      es, t := [], s;
    } else {
      var e := NextInit(s);
      NextIsOfInit(s);
      InitStepCloser(s, g);
      EventKeeps(s, g, e);
      var rest;
      rest, t := InitCompletes(Next(s, e), g);
      es := [e] + rest;
      assert es[1..] == rest;
    }
  }

  // ---- the remote's link comes up

  /** How far the remote's handler is from the link-up callback: it may still have to finish a round. */
  function Rounds(k: Core): nat {
    match k.isr
    case Serving0(_) => 0
    case Bit0(f0, _) => if f0 then 1 else 5
    case Idle => 2
    case Serving1 => 3
    case Bit1(_) => 4
  }

  /** What the remote's handler does next on the way to the callback. */
  ghost function NextUp(s: State, a: Answers): Event {
    var k := s.remote;
    var c := s.toRemote;
    match k.isr
    case Idle => IsrEnter(Remote)
    case Bit0(_, _) => IsrTest(Remote)
    case Bit1(_) => IsrTest(Remote)
    case Serving0(_) => TxCallback(Remote)
    case Serving1 =>
      if c.data.ring.reader.RIdle? && |c.qLocal| == 0 && Left(c) == 0 then DrainEnd(Remote)
      else Consume(Remote, DrainMove(c, a))
  }

  /** The remote is nearer to the callback, or its link is up. */
  predicate Rises(s: State, s': State) {
    && s'.phase == s.phase && s'.remote.up == s.remote.up
    && (|| s'.remote.link
        || Rounds(s'.remote) < Rounds(s.remote)
        || (Rounds(s'.remote) == Rounds(s.remote) && Work(s'.toRemote) < Work(s.toRemote)))
  }

  /** The steps outside the drain loop. */
  lemma HandlerRises(s: State, a: Answers)
    requires LinkDue(s) && s.phase.Ready? && s.remote.up && !s.remote.link && !s.remote.isr.Serving1?
    ensures var e := NextUp(s, a);
            Possible(s, e) && Handles(s, e, Remote, a) && !e.Kick? && Rises(s, Next(s, e))
  {
    hide Work, CanConsume, DrainStep, CanEnd, Left, DrainMove;
  }

  lemma EndsDrain(s: State)
    requires ChannelInv(s.toRemote) && s.remote.isr.Serving1?
    requires s.toRemote.data.ring.reader.RIdle? && |s.toRemote.qLocal| == 0 && Left(s.toRemote) == 0
    ensures CanEnd(s, Remote)
  {
    hide ChannelInv, LaneInv, Pending;
    DataLaneInv(s.toRemote);
    EqualMeansEmpty(s.toRemote.data);
  }

  lemma DrainRises(s: State, a: Answers)
    requires ChannelInv(s.toRemote) && s.phase.Ready? && s.remote.up && s.remote.isr.Serving1?
    requires !s.toRemote.data.ring.reader.RIdle? || |s.toRemote.qLocal| > 0 || Left(s.toRemote) > 0
    ensures var t := DrainMove(s.toRemote, a);
            && CanConsume(s, Remote, t) && DrainStep(s.toRemote, t, a)
            && Rises(s, DoConsume(s, Remote, t))
  {
    hide ChannelInv, DrainMove, Work, DrainStep, Enabled, Apply, Left, ConsumerStep;
    DrainMoveOk(s.toRemote, a);
    var t := DrainMove(s.toRemote, a);
    StepNearer(s.toRemote, t, a);
  }

  lemma NextRises(s: State, g: Config, a: Answers)
    requires Inv(s, g) && s.phase.Ready? && s.remote.up && !s.remote.link && LinkDue(s)
    ensures var e := NextUp(s, a);
            Possible(s, e) && Handles(s, e, Remote, a) && !e.Kick? && Rises(s, Next(s, e))
  {
    hide Inv, ChannelInv, Rises;
    if s.remote.isr.Serving1? {
      ReadyParts(s, g, Remote);
      LoopRises(s, a);
    } else {
      HandlerRises(s, a);
    }
  }

  lemma LoopRises(s: State, a: Answers)
    requires ChannelInv(s.toRemote) && s.phase.Ready? && s.remote.up && s.remote.isr.Serving1?
    ensures var e := NextUp(s, a);
            Possible(s, e) && Handles(s, e, Remote, a) && !e.Kick? && Rises(s, Next(s, e))
  {
    hide ChannelInv, DrainMove, Work, CanConsume, DrainStep, DoConsume, CanEnd, Left;
    if NextUp(s, a).DrainEnd? { EndsDrain(s); } else { DrainRises(s, a); }
  }

  lemma {:induction false} LinkRises(s: State, g: Config, a: Answers) returns (es: seq<Event>, t: State)
    requires Inv(s, g) && LinkDue(s) && s.phase.Ready? && s.remote.up
    ensures HandlerRun(s, es, t, Remote, a) && (forall e <- es :: !e.Kick?)
    ensures t.phase.Ready? && t.remote.up && t.remote.link
    decreases if s.remote.link then 0 else 1, Rounds(s.remote), Work(s.toRemote)
  {
    hide Inv, Possible, Next, Handles, Rounds, Work, NextUp, LinkDue;
    if s.remote.link {
      es, t := [], s;
    } else {
      var e := NextUp(s, a);
      NextRises(s, g, a);
      EventKeeps(s, g, e);
      LinkDueKeeps(s, g, e);
      var rest;
      rest, t := LinkRises(Next(s, e), g, a);
      es := [e] + rest;
      assert es[1..] == rest;
    }
  }

  /** Once the master is ready, and however late the remote starts, the remote's own handler brings its
      link up, whatever it answers to messages that it finds on the way. */
  lemma LinkComesUp(s: State, g: Config, a: Answers)
    requires Reachable(s, g) && s.phase.Ready? && s.remote.up
    ensures exists es: seq<Event>, t ::
              HandlerRun(s, es, t, Remote, a) && (forall e <- es :: !e.Kick?) && t.remote.link
  {
    hide Reachable, Inv, HandlerRun, LinkDue;
    ReachableInv(s, g);
    ReachableLinkDue(s, g);
    var es, t := LinkRises(s, g, a);
  }

  lemma ReachableLinkDue(t: State, g: Config)
    requires Reachable(t, g)
    ensures LinkDue(t)
  {
    hide Init, Inv, Reaches, LinkDue;
    var s, es :| Init(s, g) && Reaches(s, es, t);
    InitInv(s, g);
    StartsNotReady(s, g);
    RunLinkDue(s, g, es, t);
  }

  // ---- the link can be ready

  lemma {:induction false} HandlerReaches(s: State, es: seq<Event>, t: State, side: Side, a: Answers)
    requires HandlerRun(s, es, t, side, a)
    ensures Reaches(s, es, t)
    decreases |es|
  {
    hide Possible, Next, Handles;
    if es != [] { HandlerReaches(Next(s, es[0]), es[1..], t, side, a); }
  }

  lemma {:induction false} Joined(s: State, es: seq<Event>, t: State, fs: seq<Event>, u: State)
    requires Reaches(s, es, t) && Reaches(t, fs, u)
    ensures Reaches(s, es + fs, u)
    decreases |es|
  {
    hide Possible, Next;
    if es == [] {
      assert es + fs == fs;
    } else {
      Joined(Next(s, es[0]), es[1..], t, fs, u);
      assert (es + fs)[1..] == es[1..] + fs;
    }
  }

  function Cold(g: Config): State {
    State(Clear0, EmptyChannel(g, Used), EmptyChannel(g, Avail), false, false, ASLEEP, ASLEEP)
  }

  lemma ColdInit(g: Config)
    requires ConfigOk(g)
    ensures Init(Cold(g), g) && Possible(Cold(g), RemoteInit) && Next(Cold(g), RemoteInit).remote.up
  {
  }

  lemma RunFrom(s: State, g: Config, es: seq<Event>, t: State)
    requires Init(s, g) && Possible(s, RemoteInit) && Reaches(Next(s, RemoteInit), es, t)
    ensures Reachable(t, g)
  {
    hide Init, Possible, Next;
    var all := [RemoteInit] + es;
    assert all[1..] == es;
    assert Reaches(s, all, t);
  }

  /** For every configuration there are runs in which the master is ready and both links are up. */
  lemma ReadyIsReachable(g: Config)
    requires ConfigOk(g)
    ensures exists t :: Reachable(t, g) && t.phase.Ready? && t.master.link && t.remote.link
  {
    hide Reachable, Inv, Reaches, ConfigOk, Possible, Next, HandlerRun, LinkDue;
    var s := Cold(g);
    ColdInit(g);
    InitInv(s, g);
    var s1 := Next(s, RemoteInit);
    EventKeeps(s, g, RemoteInit);
    var es, t := InitCompletes(s1, g);
    RunFrom(s, g, es, t);
    ReachableInv(t, g);
    ReachableLinkDue(t, g);
    var fs, u := LinkRises(t, g, (i, m) => true);
    HandlerReaches(t, fs, u, Remote, (i, m) => true);
    Joined(s1, es, t, fs, u);
    RunFrom(s, g, es + fs, u);
    MasterLinkUp(u, g);
  }

  lemma MasterLinkUp(t: State, g: Config)
    requires Reachable(t, g) && t.phase.Ready?
    ensures t.master.link
  {
    hide Reachable, ChannelsOk, Early, SeedOk, Wakeups;
    ReachableInv(t, g);
  }
}
