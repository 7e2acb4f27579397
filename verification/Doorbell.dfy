/** The doorbell of one core in place (`mu_isr` and `platform_notify`): two sticky flags that the peer
    sets at any time and the interrupt handler clears before it serves them.
 */
module Doorbell {
  import opened System

  /** The handler's steps on a core, and a ring of the peer on bit v. */
  datatype Move = Enter | Test | Served | Rung(v: nat)

  predicate CanMove(k: Core, m: Move) {
    match m
    case Enter => k.isr.Idle? && (k.bell0 || k.bell1)
    case Test => k.isr.Bit0? || k.isr.Bit1?
    case Served => k.isr.Serving0? || k.isr.Serving1?
    case Rung(v) => v < 2
  }

  function Moved(k: Core, m: Move): Core
    requires CanMove(k, m)
  {
    match m
    case Enter => DoEnter(k)
    case Test => DoTest(k)
    case Served => DoServed(k)
    case Rung(v) => DoRing(k, v)
  }

  ghost predicate Run(k: Core, ms: seq<Move>, k': Core)
    decreases |ms|
  {
    if ms == [] then k' == k else CanMove(k, ms[0]) && Run(Moved(k, ms[0]), ms[1..], k')
  }

  /** What the handler itself does in a run. */
  function Own(ms: seq<Move>): seq<Move> {
    if ms == [] then [] else (if ms[0].Rung? then [] else [ms[0]]) + Own(ms[1..])
  }

  /** The handler's moves when it found these flags. */
  function Handling(f0: bool, f1: bool): seq<Move> {
    var first := if f0 then [Enter] + [Test] + [Served] else [Enter] + [Test];
    if f1 then first + [Test] + [Served] else first + [Test]
  }

  lemma {:induction false} RunStep(k: Core, ms: seq<Move>, k1: Core, m: Move)
    requires Run(k, ms, k1) && CanMove(k1, m)
    ensures Run(k, ms + [m], Moved(k1, m))
    ensures Own(ms + [m]) == if m.Rung? then Own(ms) else Own(ms) + [m]
    decreases |ms|
  {
    hide CanMove, Moved;
    if ms == [] {
      assert ms + [m] == [m] && [m][1..] == [];
    } else {
      RunStep(Moved(k, ms[0]), ms[1..], k1, m);
      assert (ms + [m])[1..] == ms[1..] + [m];
    }
  }

  /** The handler's moves are exactly the link's interrupt events, seen from one core: each is possible
      when its event is, apart from what the event asks of the receive ring, and does the same; serving
      the transmit vector also sets the link state. */
  lemma MovesAreEvents(s: State, side: Side, k: Core)
    requires k == CoreOf(s, side)
    ensures Possible(s, IsrEnter(side)) <==> CanMove(k, Enter) && k.up
    ensures Possible(s, IsrTest(side)) <==> CanMove(k, Test)
    ensures Possible(s, TxCallback(side)) <==> CanMove(k, Served) && !Draining(k, side)
    ensures Possible(s, DrainEnd(side)) ==> CanMove(k, Served) && Draining(k, side)
    ensures CanMove(k, Enter) ==> DoIsrEnter(s, side) == SetCore(s, side, Moved(k, Enter))
    ensures CanMove(k, Test) ==> DoIsrTest(s, side) == SetCore(s, side, Moved(k, Test))
    ensures CanMove(k, Served) ==> DoDrainEnd(s, side) == SetCore(s, side, Moved(k, Served))
    ensures CanMove(k, Served) ==> DoTxCallback(s, side) == SetCore(s, side, Moved(k, Served).(link := true))
    ensures !s.noNotify0 ==> KickVring(s, Other(side), 0) == SetCore(s, side, Moved(k, Rung(0)))
    ensures !s.noNotify1 ==> KickVring(s, Other(side), 1) == SetCore(s, side, Moved(k, Rung(1)))
  {
  }

  function Bell(k: Core, v: nat): bool {
    if v == 0 then k.bell0 else k.bell1
  }

  predicate Serving(k: Core, v: nat) {
    if v == 0 then k.isr.Serving0? else k.isr.Serving1?
  }

  /** Vector v is served in the course of the run. */
  ghost predicate ServesIn(k: Core, ms: seq<Move>, v: nat)
    decreases |ms|
  {
    && ms != [] && CanMove(k, ms[0])
    && ((ms[0].Served? && Serving(k, v)) || ServesIn(Moved(k, ms[0]), ms[1..], v))
  }

  lemma BellStays(k: Core, m: Move, v: nat)
    requires CanMove(k, m) && v < 2 && (Bell(k, v) || Serving(k, v)) && !(m.Served? && Serving(k, v))
    ensures Bell(Moved(k, m), v) || Serving(Moved(k, m), v)
  {
  }

  /** No ring is lost: from any point where bit v is set, however the handler goes on and the peer
      rings, by the time the handler is idle v has been served or its bit is still set. */
  lemma {:induction false} RingIsServed(k: Core, ms: seq<Move>, k': Core, v: nat)
    requires Run(k, ms, k') && v < 2 && (Bell(k, v) || Serving(k, v)) && k'.isr.Idle?
    ensures Bell(k', v) || ServesIn(k, ms, v)
    decreases |ms|
  {
    if ms != [] && !(ms[0].Served? && Serving(k, v)) {
      BellStays(k, ms[0], v);
      hide CanMove, Moved;
      RingIsServed(Moved(k, ms[0]), ms[1..], k', v);
    }
  }

  /** The message unit as one core sees it. */
  class Mu {
    var flag0: bool
    var flag1: bool
    ghost var core: Core

    ghost predicate Valid()
      reads this
    {
      core.bell0 == flag0 && core.bell1 == flag1
    }

    constructor ()
      ensures Valid() && core == ASLEEP
    {
      flag0, flag1, core := false, false, ASLEEP;
    }

    /** `platform_notify` of the peer */
    method Trigger(v: nat)
      requires Valid() && v < 2
      modifies this
      ensures Valid() && core == Moved(old(core), Rung(v))
      ensures flag0 == (old(flag0) || v == 0) && flag1 == (old(flag1) || v == 1)
    {
      if v == 0 { flag0 := true; } else { flag1 := true; }
      core := Moved(core, Rung(v));
    }

    /** The peer may ring, any number of times. */
    method PeerRings(ghost start: Core, ghost ms: seq<Move>) returns (ghost ns: seq<Move>)
      requires Valid() && Run(start, ms, core)
      modifies this
      ensures Valid() && Run(start, ns, core) && Own(ns) == Own(ms) && core.isr == old(core.isr)
    {
      ns := ms;
    }

    /** One half of `mu_isr`: if bit v was found set, clear it and then serve it. */
    method HandleBit(v: nat, found: bool, ghost start: Core, ghost ms: seq<Move>)
      returns (served: seq<nat>, ghost ns: seq<Move>)
      requires Valid() && Run(start, ms, core) && v < 2
      requires if v == 0 then core.isr.Bit0? && core.isr.f0 == found else core.isr.Bit1? && core.isr.f1 == found
      modifies this
      ensures Valid() && Run(start, ns, core) && served == (if found then [v] else [])
      ensures Own(ns) == if found then Own(ms) + [Test] + [Served] else Own(ms) + [Test]
      ensures core.isr == if v == 0 then Bit1(old(core.isr.f1)) else Idle
    {
      hide Run, Own;
      served, ns := [], ms;
      RunStep(start, ns, core, Test);
      core, ns := Moved(core, Test), ns + [Test];
      if found {
        if v == 0 { flag0 := false; } else { flag1 := false; }
        ns := PeerRings(start, ns);
        served := [v];  // env_isr(v)
        RunStep(start, ns, core, Served);
        core, ns := Moved(core, Served), ns + [Served];
      }
    }

    /** `mu_isr`: reads both flags once, handles the first and then the second. */
    method MuIsr() returns (served: seq<nat>, ghost ms: seq<Move>)
      requires Valid() && CanMove(core, Enter)
      modifies this
      ensures Valid() && core.isr.Idle? && Run(old(core), ms, core)
      ensures Own(ms) == Handling(old(flag0), old(flag1))
      ensures served == (if old(flag0) then [0] else []) + (if old(flag1) then [1] else [])
    {
      hide Run, Own, Moved;
      ghost var start := core;
      EmptyRun(start);
      var f0, f1 := flag0, flag1;
      EnterBits(core);
      RunStep(start, [], core, Enter);
      core, ms := Moved(core, Enter), [] + [Enter];
      ms := PeerRings(start, ms);
      served, ms := HandleBit(0, f0, start, ms);
      ms := PeerRings(start, ms);
      var second;
      second, ms := HandleBit(1, f1, start, ms);
      served := served + second;
    }
  }

  lemma EnterBits(k: Core)
    requires CanMove(k, Enter)
    ensures Moved(k, Enter) == k.(isr := Bit0(k.bell0, k.bell1))
  {
  }

  lemma EmptyRun(k: Core)
    ensures Run(k, [], k) && Own([]) == []
  {
  }
}
