/** What is published is what the sender wrote: over any run, with both cores moving freely, a buffer
    stays as its owner left it until its entry is published, and is published once.
 */
module Publication {
  import opened Words
  import opened Lanes
  import opened Channels
  import opened ChannelSteps
  import opened System
  import opened SystemProof
  import opened LinkTheorems
  import opened Ownership

  // ---- the producer's steps on one descriptor

  predicate Edits(t: Step, d: nat) {
    match t
    case HandOut(e) => e == d
    case Header(e, _, _, _, _) => e == d
    case Copy(e, _) => e == d
    case AppWrite(e, _) => e == d
    case _ => false
  }

  predicate Sends(t: Step, d: nat) {
    t == Send(d) || t == SendNoCopy(d)
  }

  /** What an edit makes of the buffer. */
  function Edited(b: Buffer, t: Step): Buffer {
    match t
    case HandOut(d) => b.(idx := d % U16)
    case Header(_, src, dst, size, flags) => b.(src := src, dst := dst, len := size % U16, flags := flags % U16)
    case Copy(_, bytes) =>
      b.(payload := if |bytes| <= |b.payload| then bytes + b.payload[|bytes|..] else bytes)
    case AppWrite(_, payload) => b.(payload := payload)
    case _ => b
  }

  // ---- where a descriptor is on its way from the owner to the log

  /** No entry for d has been published since the log had n0 entries. */
  ghost predicate NoneSince(c: Channel, d: nat, n0: nat) {
    n0 <= |c.data.log| && forall i | n0 <= i < |c.data.log| :: c.data.log[i].id != d
  }

  predicate BeingWritten(c: Channel, d: nat) {
    !c.data.ring.writer.WIdle? && c.data.ring.writer.item.id == d
  }

  datatype Stage =
    | Editing(b: Buffer)        // with the owner, holding b
    | Writing(m: Msg)           // its entry is being written
    | Published(m: Msg, i: nat) // entry i of the log, and no other since

  ghost predicate At(c: Channel, d: nat, n0: nat, st: Stage) {
    match st
    case Editing(b) =>
      (d in c.pLocal || d in c.pApp) && BufferOf(c, d) == b && NoneSince(c, d, n0)
    case Writing(m) =>
      BeingWritten(c, d) && View(BufferOf(c, d)) == m && NoneSince(c, d, n0)
    case Published(m, i) =>
      && !BeingWritten(c, d) && n0 <= i < |c.data.log| && |c.sent| == |c.data.log|
      && c.data.log[i].id == d && c.sent[i] == m
      && forall j | n0 <= j < |c.data.log| :: c.data.log[j].id == d ==> j == i
  }

  /** What a step does to the log and to the entry being written. */
  ghost predicate LogMoves(c: Channel, c': Channel, t: Step) {
    && (t == DataWrite(Publish) ==> !c.data.ring.writer.WIdle? && c'.data.ring.writer.WIdle?)
    && c'.data.log == (if t == DataWrite(Publish) then c.data.log + [c.data.ring.writer.item] else c.data.log)
    && (forall d: nat | BeingWritten(c', d) :: BeingWritten(c, d) || Sends(t, d))
    && (forall d: nat | Sends(t, d) :: BeingWritten(c', d))
    && (t != DataWrite(Publish) ==> forall d: nat | BeingWritten(c, d) :: BeingWritten(c', d))
  }

  lemma LogShape(c: Channel, t: Step)
    requires ChannelInv(c) && Enabled(c, t) && (ProducerStep(t) || ConsumerStep(t))
    ensures LogMoves(c, Apply(c, t), t)
  {
    if t.DataWrite? {
      hide ChannelInv, CanWrite, Write, View, BufferOf;
      WriteMoves(c.data, t.write);
    } else if t.Send? || t.SendNoCopy? {
      hide ChannelInv, LogMoves;
      SendMoves(c, t);
    } else {
      hide ChannelInv, LogMoves, Enabled, Apply;
      DataKept(c, t);
      KeptMoves(c, Apply(c, t), t);
    }
  }

  lemma KeptMoves(c: Channel, c': Channel, t: Step)
    requires !t.DataWrite? && !t.Send? && !t.SendNoCopy?
    requires c'.data.log == c.data.log && c'.data.ring.writer == c.data.ring.writer
    ensures LogMoves(c, c', t)
  {
  }

  lemma WriteMoves(l: Lane, w: WriterStep)
    requires CanWrite(l.ring, w) && !w.Place?
    ensures var m := Write(l, w);
            && !l.ring.writer.WIdle?
            && m.log == (if w.Publish? then l.log + [l.ring.writer.item] else l.log)
            && (if w.Publish? then m.ring.writer.WIdle?
                else !m.ring.writer.WIdle? && m.ring.writer.item == l.ring.writer.item)
  {
  }

  lemma SendMoves(c: Channel, t: Step)
    requires ChannelInv(c) && Enabled(c, t) && (t.Send? || t.SendNoCopy?)
    ensures LogMoves(c, Apply(c, t), t)
  {
    hide ChannelInv, CanWrite, Write, BufferOf, DescLen, Lookup;
    if t.SendNoCopy? { AppNames(c, t.d); }
    CanPlaceAny(c.data.ring, Slot(0, 0));
    var item := if t.Send? then MakeItem(c.data.ring.kind, t.d, Lookup(c.pLen, t.d))
                else MakeItem(c.data.ring.kind, BufferOf(c, t.d).idx, DescLen(c, BufferOf(c, t.d).idx));
    PlaceFrame(c.data, item);
  }

  lemma DataKept(c: Channel, t: Step)
    requires Enabled(c, t) && (ProducerStep(t) || ConsumerStep(t))
    requires !t.DataWrite? && !t.Send? && !t.SendNoCopy?
    ensures Apply(c, t).data.log == c.data.log && Apply(c, t).data.ring.writer == c.data.ring.writer
  {
    if ConsumerStep(t) {
      hide CanRead, CanWrite, Read, Write, TakenLen, View, BufferOf, HasBuffer, DescLen;
      if t.Receive? { ReadFrame(c.data, t.read); }
    } else {
      hide CanRead, Read, TakenLen, View, BufferOf, HasBuffer;
    }
  }

  // ---- one step

  predicate Names(t: Step, d: nat) {
    Edits(t, d) || Sends(t, d)
  }

  /** A step of either core that is not the owner's on d. */
  predicate Foreign(t: Step, d: nat) {
    ConsumerStep(t) || (ProducerStep(t) && !Names(t, d))
  }

  /** Nothing but the owner's steps on d takes it away from the owner. */
  lemma OwnerKeeps(c: Channel, t: Step, d: nat)
    requires Enabled(c, t) && Foreign(t, d) && (d in c.pLocal || d in c.pApp)
    ensures d in Apply(c, t).pLocal || d in Apply(c, t).pApp
  {
    if ConsumerStep(t) {
      hide Enabled, Apply;
      ConsumerShape(c, t);
    } else {
      hide CanRead, CanWrite, Read, Write, TakenLen, View, BufferOf, HasBuffer, DescLen, ConsumerStep, DoAlloc,
           SetBuffer;
      if t.Alloc? { AllocHolds(c, t.read); }
    }
  }

  lemma AllocHolds(c: Channel, r: ReaderStep)
    requires CanRead(c.free.ring, r)
    ensures c.pLocal <= DoAlloc(c, r).pLocal && DoAlloc(c, r).pApp == c.pApp
  {
    hide CanRead, Read, TakenLen;
  }

  lemma ForeignSpares(c: Channel, t: Step, d: nat)
    requires ChannelInv(c) && Enabled(c, t) && Foreign(t, d) && (d in c.pLocal || d in c.pApp)
    ensures BufferOf(Apply(c, t), d) == BufferOf(c, d)
  {
    hide ChannelInv, Enabled, Apply, ConsumerStep, ProducerStep;
    if ConsumerStep(t) {
      StepKinds(t);
      Spared(c, t, d);
    } else {
      NotTouched(t, d);
      DescPart(c);
      UntouchedBuffer(c, t, d);
    }
  }

  lemma StepKinds(t: Step)
    requires ConsumerStep(t)
    ensures !t.Seed?
  {
  }

  lemma NotTouched(t: Step, d: nat)
    requires ProducerStep(t) && !Names(t, d)
    ensures d !in Touched(t) && !t.Seed?
  {
  }

  lemma HeldNotWritten(c: Channel, d: nat)
    requires ChannelInv(c)
    ensures d in c.pLocal || d in c.pApp ==> !BeingWritten(c, d)
  {
    if !c.data.ring.writer.WIdle? { WriterHoldsAlone(c); }
  }

  lemma NoneSinceKept(c: Channel, c': Channel, t: Step, d: nat, n0: nat)
    requires NoneSince(c, d, n0) && LogMoves(c, c', t) && (t == DataWrite(Publish) ==> !BeingWritten(c, d))
    ensures NoneSince(c', d, n0)
  {
  }

  lemma EditingKept(c: Channel, t: Step, d: nat, n0: nat, b: Buffer)
    requires ChannelInv(c) && Enabled(c, t) && Foreign(t, d) && At(c, d, n0, Editing(b))
    ensures At(Apply(c, t), d, n0, Editing(b))
  {
    hide ChannelInv, Enabled, Apply, LogMoves, BufferOf, NoneSince, BeingWritten;
    OwnerKeeps(c, t, d);
    ForeignSpares(c, t, d);
    LogShape(c, t);
    HeldNotWritten(c, d);
    NoneSinceKept(c, Apply(c, t), t, d, n0);
  }

  /** The owner's edit. */
  lemma EditDone(c: Channel, t: Step, d: nat, n0: nat, b: Buffer)
    requires ChannelInv(c) && Enabled(c, t) && Edits(t, d) && At(c, d, n0, Editing(b))
    ensures At(Apply(c, t), d, n0, Editing(Edited(b, t)))
  {
    hide ChannelInv, Enabled, Apply, LogMoves, BufferOf, NoneSince, BeingWritten;
    LogShape(c, t);
    HeldNotWritten(c, d);
    NoneSinceKept(c, Apply(c, t), t, d, n0);
    EditMoves(c, t, d);
  }

  lemma EditMoves(c: Channel, t: Step, d: nat)
    requires ChannelInv(c) && Enabled(c, t) && Edits(t, d) && (d in c.pLocal || d in c.pApp)
    ensures var c' := Apply(c, t);
            BufferOf(c', d) == Edited(BufferOf(c, d), t) && (d in c'.pLocal || d in c'.pApp)
  {
    hide ChannelInv, HasBuffer, BufferOf, SetBuffer;
    InHeld(c, d);
    HeldBuffer(c, d);
    var b := Edited(BufferOf(c, d), t);
    SetThenGet(c, d, b);
    BufferFrame(c, d, b);
    SameMemory(SetBuffer(c, d, b), Apply(c, t), d);
  }

  lemma InHeld(c: Channel, d: nat)
    requires d in c.pLocal || d in c.pApp
    ensures d in Held(c)
  {
  }

  /** The owner's send. */
  lemma SendDone(c: Channel, t: Step, d: nat, n0: nat, b: Buffer)
    requires ChannelInv(c) && Enabled(c, t) && Sends(t, d) && At(c, d, n0, Editing(b))
    ensures At(Apply(c, t), d, n0, Writing(View(b)))
  {
    hide ChannelInv, Enabled, Apply, BufferOf, NoneSince, BeingWritten, View;
    LogShape(c, t);
    NoneSinceKept(c, Apply(c, t), t, d, n0);
    MemoryUntouched(c, t);
    SameMemory(c, Apply(c, t), d);
  }

  /** While its entry is being written, any step of either core leaves the message alone; the last
      one publishes it. */
  lemma WritingGoesOn(c: Channel, t: Step, d: nat, n0: nat, m: Msg)
    requires ChannelInv(c) && Enabled(c, t) && Foreign(t, d) && At(c, d, n0, Writing(m))
    ensures var c' := Apply(c, t);
            At(c', d, n0, Writing(m)) || At(c', d, n0, Published(m, |c.data.log|))
  {
    hide ChannelInv, Enabled, Apply, BufferOf, View;
    LogShape(c, t);
    WrittenBufferSpared(c, t);
    if t == DataWrite(Publish) {
      StepKeeps(c, t);
      HistoryShape(c, t);
      Histories(c);
    }
  }

  lemma Histories(c: Channel)
    requires ChannelInv(c)
    ensures |c.sent| == |c.data.log|
  {
  }

  lemma PublishedKept(c: Channel, t: Step, d: nat, n0: nat, m: Msg, i: nat)
    requires ChannelInv(c) && Enabled(c, t) && Foreign(t, d) && At(c, d, n0, Published(m, i))
    ensures At(Apply(c, t), d, n0, Published(m, i))
  {
    hide ChannelInv, Enabled, Apply, View, NextMessage, Edits;
    LogShape(c, t);
    HistoryShape(c, t);
  }

  // ---- runs

  /** The step, if any, that an event makes on the channel a side transmits on. */
  predicate Moves(e: Event, side: Side) {
    (e.Transmit? && e.side == side) || (e.Consume? && e.side == Other(side))
  }

  lemma EventOnTx(s: State, g: Config, side: Side, e: Event)
    requires Inv(s, g) && s.phase.Ready? && Possible(s, e)
    ensures Next(s, e).phase.Ready? && ChannelInv(TxChannel(s, side))
    ensures var c, c' := TxChannel(s, side), TxChannel(Next(s, e), side);
            if Moves(e, side) then
              Enabled(c, e.step) && c' == Apply(c, e.step)
              && (if e.Transmit? then ProducerStep(e.step) else ConsumerStep(e.step))
            else
              c' == c
  {
    hide Inv, ChannelInv, Enabled, Apply, ProducerStep, ConsumerStep, CanEnd, CanSeed, DoTest;
    ReadyChannels(s, g);
    if !e.Transmit? && !e.Consume? {
      hide Possible, Next;
      QuietEvents(s, e);
    }
  }

  lemma QuietEvents(s: State, e: Event)
    requires s.phase.Ready? && Possible(s, e) && !e.Transmit? && !e.Consume?
    ensures Next(s, e).phase.Ready? && Next(s, e).toMaster == s.toMaster && Next(s, e).toRemote == s.toRemote
  {
    hide CanEnd, DoTest, DoServed, DoEnter, DoRing, DoSeed, DoFreeWrite, DoClearRing, CanSeed, CanWrite;
    match e {
      case Kick(side) => KickOnly(s, side);
      case NotifyFreed(side) => KickOnly(s, side);
      case _ =>
    }
  }

  lemma KickOnly(s: State, side: Side)
    ensures var s' := DoKick(s, side); s' == s.(master := s'.master, remote := s'.remote)
    ensures var s' := DoNotifyFreed(s, side); s' == s.(master := s'.master, remote := s'.remote)
  {
    hide DoRing;
  }

  /** The owner's steps on d in a run. */
  function OwnSteps(es: seq<Event>, side: Side, d: nat): seq<Step> {
    if es == [] then [] else
    (if es[0].Transmit? && es[0].side == side && Names(es[0].step, d) then [es[0].step] else [])
    + OwnSteps(es[1..], side, d)
  }

  /** Edits, and then at most one send. */
  predicate OneSend(own: seq<Step>, d: nat)
    decreases |own|
  {
    own == [] || (Edits(own[0], d) && OneSend(own[1..], d)) || (Sends(own[0], d) && own[1..] == [])
  }

  /** Where the owner's steps lead. */
  function Outcome(b: Buffer, own: seq<Step>, d: nat): Stage
    decreases |own|
  {
    if own == [] then Editing(b)
    else if Sends(own[0], d) then Writing(View(b))
    else Outcome(Edited(b, own[0]), own[1..], d)
  }

  /** A message being written may have been published. */
  predicate Reached(st: Stage, st': Stage) {
    st' == st || (st.Writing? && st'.Published? && st'.m == st.m)
  }

  function StageAfter(st: Stage, own: seq<Step>, d: nat): Stage {
    if st.Editing? then Outcome(st.b, own, d) else st
  }

  /** One event of a run. */
  lemma FollowEvent(s: State, g: Config, side: Side, d: nat, n0: nat, st: Stage, e: Event) returns (st': Stage)
    requires Inv(s, g) && s.phase.Ready? && Possible(s, e) && At(TxChannel(s, side), d, n0, st)
    requires var own := OwnSteps([e], side, d); if st.Editing? then OneSend(own, d) else own == []
    ensures Next(s, e).phase.Ready? && At(TxChannel(Next(s, e), side), d, n0, st')
    ensures Reached(StageAfter(st, OwnSteps([e], side, d), d), st')
  {
    hide Inv, ChannelInv, Enabled, Apply, At, Possible, Next, ProducerStep, ConsumerStep, Edits, Sends, View, Edited;
    EventOnTx(s, g, side, e);
    OneEvent(e, side, d);
    if st.Editing? && e.Transmit? { OneStep(st.b, e.step, d); }
    var c := TxChannel(s, side);
    st' := st;
    if Moves(e, side) {
      if e.Transmit? && Names(e.step, d) {
        if Sends(e.step, d) {
          SendDone(c, e.step, d, n0, st.b);
          st' := Writing(View(st.b));
        } else {
          EditDone(c, e.step, d, n0, st.b);
          st' := Editing(Edited(st.b, e.step));
        }
      } else {
        match st {
          case Editing(b) => EditingKept(c, e.step, d, n0, b);
          case Published(m, i) => PublishedKept(c, e.step, d, n0, m, i);
          case Writing(m) =>
            WritingGoesOn(c, e.step, d, n0, m);
            if !At(TxChannel(Next(s, e), side), d, n0, st) { st' := Published(m, |c.data.log|); }
        }
      }
    }
  }

  lemma OneStep(b: Buffer, t: Step, d: nat)
    ensures Outcome(b, [], d) == Editing(b)
    ensures Outcome(b, [t], d) == if Sends(t, d) then Writing(View(b)) else Editing(Edited(b, t))
  {
    hide Sends, View, Edited;
    assert [t][1..] == [];
  }

  lemma OneEvent(e: Event, side: Side, d: nat)
    ensures OwnSteps([e], side, d)
            == if e.Transmit? && e.side == side && Names(e.step, d) then [e.step] else []
  {
    assert [e][1..] == [];
  }

  lemma FollowSplit(es: seq<Event>, side: Side, d: nat)
    requires es != []
    ensures OwnSteps(es, side, d) == OwnSteps([es[0]], side, d) + OwnSteps(es[1..], side, d)
    ensures |OwnSteps([es[0]], side, d)| <= 1
  {
    hide Names;
    assert [es[0]][1..] == [];
  }

  lemma EditOrSend(t: Step, d: nat)
    ensures !(Edits(t, d) && Sends(t, d))
  {
  }

  lemma ScriptHead(b: Buffer, t: Step, rest: seq<Step>, d: nat)
    ensures OneSend([t] + rest, d) <==> (Edits(t, d) && OneSend(rest, d)) || (Sends(t, d) && rest == [])
    ensures Outcome(b, [t] + rest, d) == if Sends(t, d) then Writing(View(b)) else Outcome(Edited(b, t), rest, d)
    ensures OneSend([], d) && Outcome(b, [], d) == Editing(b)
  {
    hide Edits, Sends, View, Edited;
    assert ([t] + rest)[0] == t && ([t] + rest)[1..] == rest;
  }

  /** After the first of some own steps, the rest are still edits and at most one send. */
  lemma RestOfScript(st: Stage, first: seq<Step>, rest: seq<Step>, d: nat)
    requires |first| <= 1 && if st.Editing? then OneSend(first + rest, d) else first + rest == []
    ensures if st.Editing? then OneSend(first, d) else first == []
    ensures var st' := StageAfter(st, first, d); if st'.Editing? then OneSend(rest, d) else rest == []
    ensures StageAfter(StageAfter(st, first, d), rest, d) == StageAfter(st, first + rest, d)
  {
    hide Edits, Sends, View, Edited, OneSend, Outcome;
    if first == [] {
      assert first + rest == rest;
      if st.Editing? { ScriptHead(st.b, Alloc(Check), [], d); }
    } else if st.Editing? {
      var t := first[0];
      assert first == [t] && [t] + [] == [t];
      EditOrSend(t, d);
      ScriptHead(st.b, t, rest, d);
      ScriptHead(st.b, t, [], d);
      ScriptHead(Edited(st.b, t), t, [], d);
    }
  }

  /** Any run from a state where the owner holds d, in which the owner's steps on d are edits and at most
      one send, ends where those steps alone lead, whatever else happens. */
  lemma {:induction false} Follow(s: State, g: Config, side: Side, d: nat, n0: nat, st: Stage,
                                  es: seq<Event>, t: State) returns (st': Stage)
    requires Inv(s, g) && s.phase.Ready? && Reaches(s, es, t) && At(TxChannel(s, side), d, n0, st)
    requires var own := OwnSteps(es, side, d); if st.Editing? then OneSend(own, d) else own == []
    ensures At(TxChannel(t, side), d, n0, st') && Reached(StageAfter(st, OwnSteps(es, side, d), d), st')
    decreases |es|
  {
    hide Inv, At, Possible, Next, OneSend, OwnSteps, Outcome;
    if es == [] {
      NoSteps(st, side, d);
      st' := st;
    } else {
      FollowSplit(es, side, d);
      var first, rest := OwnSteps([es[0]], side, d), OwnSteps(es[1..], side, d);
      RestOfScript(st, first, rest, d);
      var mid := FollowEvent(s, g, side, d, n0, st, es[0]);
      EventKeeps(s, g, es[0]);
      st' := Follow(Next(s, es[0]), g, side, d, n0, mid, es[1..], t);
    }
  }

  lemma NoSteps(st: Stage, side: Side, d: nat)
    ensures OwnSteps([], side, d) == [] && StageAfter(st, [], d) == st
  {
  }

  // ---- the theorems

  /** Entry i is the only one for d since the log had n0 entries, and the message sent there is m. */
  ghost predicate SentAs(c: Channel, d: nat, n0: nat, i: nat, m: Msg) {
    && n0 <= i < |c.data.log| && |c.sent| == |c.data.log| && c.data.log[i].id == d && c.sent[i] == m
    && forall j | n0 <= j < |c.data.log| :: c.data.log[j].id == d ==> j == i
  }

  /** The message m goes out from d: its entry is being written, or has been published once. */
  ghost predicate GoesOut(c: Channel, d: nat, n0: nat, m: Msg) {
    if BeingWritten(c, d) then View(BufferOf(c, d)) == m && NoneSince(c, d, n0)
    else exists i :: SentAs(c, d, n0, i, m)
  }

  /** The channel a side transmits on holds d for the side or its application. */
  predicate Owns(s: State, side: Side, d: nat) {
    d in TxChannel(s, side).pLocal || d in TxChannel(s, side).pApp
  }

  lemma Followed(s: State, g: Config, side: Side, d: nat, es: seq<Event>, t: State) returns (st: Stage)
    requires Reachable(s, g) && s.phase.Ready? && Reaches(s, es, t) && Owns(s, side, d)
    requires OneSend(OwnSteps(es, side, d), d)
    ensures At(TxChannel(t, side), d, |TxChannel(s, side).data.log|, st)
    ensures Reached(Outcome(BufferOf(TxChannel(s, side), d), OwnSteps(es, side, d), d), st)
  {
    hide Reachable, Inv, Reaches, BufferOf, Outcome, OneSend, OwnSteps;
    ReachableInv(s, g);
    var c := TxChannel(s, side);
    st := Follow(s, g, side, d, |c.data.log|, Editing(BufferOf(c, d)), es, t);
  }

  /** As long as its owner makes no step on it, a buffer stays with its owner and unchanged, over any run. */
  lemma OwnedBufferStays(s: State, g: Config, side: Side, d: nat, es: seq<Event>, t: State)
    requires Reachable(s, g) && s.phase.Ready? && Reaches(s, es, t) && Owns(s, side, d)
    requires OwnSteps(es, side, d) == []
    ensures Owns(t, side, d) && BufferOf(TxChannel(t, side), d) == BufferOf(TxChannel(s, side), d)
  {
    hide Reachable, Inv, Reaches, BufferOf, OwnSteps, NoneSince;
    var st := Followed(s, g, side, d, es, t);
  }

  /** Whatever edits the owner makes, and then one send: the message that these edits alone leave in the
      buffer goes out. */
  lemma WrittenGoesOut(s: State, g: Config, side: Side, d: nat, es: seq<Event>, t: State)
    requires Reachable(s, g) && s.phase.Ready? && Reaches(s, es, t) && Owns(s, side, d)
    requires var own := OwnSteps(es, side, d);
             OneSend(own, d) && Outcome(BufferOf(TxChannel(s, side), d), own, d).Writing?
    ensures GoesOut(TxChannel(t, side), d, |TxChannel(s, side).data.log|,
                    Outcome(BufferOf(TxChannel(s, side), d), OwnSteps(es, side, d), d).m)
  {
    hide Reachable, Inv, Reaches, OwnSteps, BufferOf, Outcome, OneSend, GoesOut;
    var st := Followed(s, g, side, d, es, t);
    StageGoesOut(TxChannel(t, side), d, |TxChannel(s, side).data.log|, st,
                 Outcome(BufferOf(TxChannel(s, side), d), OwnSteps(es, side, d), d).m);
  }

  /** A copying send: over any run in which this side's steps on d are the header, the payload and the
      send, in that order, exactly the caller's message goes out, once, cut to its size modulo 2^16. */
  lemma CopySendGoesOut(s: State, g: Config, side: Side, d: nat, es: seq<Event>, t: State,
                        src: u32, dst: u32, bytes: seq<u8>, flags: nat)
    requires Reachable(s, g) && s.phase.Ready? && Reaches(s, es, t) && Owns(s, side, d)
    requires OwnSteps(es, side, d) == [Header(d, src, dst, |bytes|, flags), Copy(d, bytes), Send(d)]
    requires |bytes| <= g.payloadSize
    ensures GoesOut(TxChannel(t, side), d, |TxChannel(s, side).data.log|, Msg(src, dst, Cut(bytes)))
  {
    hide Reachable, Reaches, OwnSteps, BufferOf, Cut, GoesOut, Outcome, OneSend;
    OwnedFits(s, g, side, d);
    CopyOutcome(BufferOf(TxChannel(s, side), d), d, src, dst, bytes, flags);
    WrittenGoesOut(s, g, side, d, es, t);
  }

  /** A zero-copy send, from the allocation on: the payload that the application has written last goes
      out, once, from any size that the buffer has room for. */
  lemma NoCopySendGoesOut(s: State, g: Config, side: Side, d: nat, es: seq<Event>, t: State,
                          src: u32, dst: u32, payload: seq<u8>, size: nat, flags: nat)
    requires Reachable(s, g) && s.phase.Ready? && Reaches(s, es, t) && Owns(s, side, d)
    requires OwnSteps(es, side, d)
             == [HandOut(d), AppWrite(d, payload), Header(d, src, dst, size, flags), SendNoCopy(d)]
    requires size <= |payload|
    ensures GoesOut(TxChannel(t, side), d, |TxChannel(s, side).data.log|, Msg(src, dst, Cut(payload[..size])))
  {
    hide Reachable, Reaches, OwnSteps, BufferOf, Cut, GoesOut, Outcome, OneSend;
    NoCopyOutcome(BufferOf(TxChannel(s, side), d), d, src, dst, payload, size, flags);
    WrittenGoesOut(s, g, side, d, es, t);
  }

  lemma StageGoesOut(c: Channel, d: nat, n0: nat, st: Stage, m: Msg)
    requires At(c, d, n0, st) && Reached(Writing(m), st)
    ensures GoesOut(c, d, n0, m)
  {
    hide View, BufferOf, NoneSince;
    if st.Published? { assert SentAs(c, d, n0, st.i, m); }
  }

  lemma OwnedFits(s: State, g: Config, side: Side, d: nat)
    requires Reachable(s, g) && s.phase.Ready? && Owns(s, side, d)
    ensures g.payloadSize <= |BufferOf(TxChannel(s, side), d).payload|
  {
    hide Reachable, ChannelInv, BufferOf;
    ReachableChannel(s, g, TxChannel(s, side));
    InHeld(TxChannel(s, side), d);
    HeldBuffer(TxChannel(s, side), d);
    Sizes(TxChannel(s, side));
  }

  lemma CopyOutcome(b: Buffer, d: nat, src: u32, dst: u32, bytes: seq<u8>, flags: nat)
    requires |bytes| <= |b.payload|
    ensures var own := [Header(d, src, dst, |bytes|, flags), Copy(d, bytes), Send(d)];
            OneSend(own, d) && Outcome(b, own, d) == Writing(Msg(src, dst, Cut(bytes)))
  {
    var t1, t2, t3 := Header(d, src, dst, |bytes|, flags), Copy(d, bytes), Send(d);
    var b1 := Edited(b, t1);
    var b2 := Edited(b1, t2);
    FormattedView(b1, b2, bytes);
    hide View, Cut, OneSend, Outcome;
    ScriptHead(b2, t3, [], d);
    ScriptHead(b1, t2, [t3], d);
    ScriptHead(b, t1, [t2, t3], d);
    assert [t1] + [t2, t3] == [t1, t2, t3] && [t2] + [t3] == [t2, t3] && [t3] + [] == [t3];
  }

  lemma NoCopyOutcome(b: Buffer, d: nat, src: u32, dst: u32, payload: seq<u8>, size: nat, flags: nat)
    requires size <= |payload|
    ensures var own := [HandOut(d), AppWrite(d, payload), Header(d, src, dst, size, flags), SendNoCopy(d)];
            OneSend(own, d) && Outcome(b, own, d) == Writing(Msg(src, dst, Cut(payload[..size])))
  {
    var t1, t2, t3, t4 := HandOut(d), AppWrite(d, payload), Header(d, src, dst, size, flags), SendNoCopy(d);
    var b1 := Edited(b, t1);
    var b2 := Edited(b1, t2);
    var b3 := Edited(b2, t3);
    assert payload[..size][..size % U16] == payload[..size % U16];
    assert View(b3) == Msg(src, dst, Cut(payload[..size]));
    hide View, Cut, OneSend, Outcome;
    ScriptHead(b3, t4, [], d);
    ScriptHead(b2, t3, [t4], d);
    ScriptHead(b1, t2, [t3, t4], d);
    ScriptHead(b, t1, [t2, t3, t4], d);
    assert [t1] + [t2, t3, t4] == [t1, t2, t3, t4] && [t2] + [t3, t4] == [t2, t3, t4];
    assert [t3] + [t4] == [t3, t4] && [t4] + [] == [t4];
  }

  // ---- the receiver's side

  /** The channel a side receives on holds d for the side or its application, with message m in it. */
  predicate Has(c: Channel, d: nat, m: Msg) {
    (d in c.qLocal || d in c.qApp) && View(BufferOf(c, d)) == m
  }

  predicate GivesBack(t: Step, d: nat) {
    t == Free(d) || t == Release(d)
  }

  lemma HasKept(c: Channel, t: Step, d: nat, m: Msg)
    requires ChannelInv(c) && Enabled(c, t) && (ProducerStep(t) || (ConsumerStep(t) && !GivesBack(t, d)))
    requires Has(c, d, m)
    ensures Has(Apply(c, t), d, m)
  {
    hide ChannelInv, Enabled, Apply, View, BufferOf, ProducerStep, ConsumerStep;
    HolderKeeps(c, t, d);
    if t == Hold(d) {
      HoldView(c, d);
    } else {
      HolderSpared(c, t, d);
    }
  }

  lemma HolderKeeps(c: Channel, t: Step, d: nat)
    requires Enabled(c, t) && (ProducerStep(t) || (ConsumerStep(t) && !GivesBack(t, d)))
    requires d in c.qLocal || d in c.qApp
    ensures d in Apply(c, t).qLocal || d in Apply(c, t).qApp
  {
    if ProducerStep(t) {
      hide Enabled, Apply;
      ProducerShape(c, t);
    } else {
      hide CanRead, CanWrite, Read, Write, TakenLen, View, BufferOf, HasBuffer, DescLen, Lookup, SetBuffer, Cleared,
           MakeItem, ProducerStep;
      match t {
        case Receive(r) => ReceiveHolds(c, r);
        case Free(e) => ClearedFrame(c.(free := Write(c.free, Place(MakeItem(c.free.ring.kind, e, Lookup(c.qLen, e)))),
                                        qLocal := c.qLocal - multiset{e}), e);
        case Release(e) => ReleaseHolds(c, e);
        case Hold(e) => BufferFrame(c, e, BufferOf(c, e).(idx := e % U16));
        case FreeWrite(_) =>
      }
    }
  }

  lemma ReceiveHolds(c: Channel, r: ReaderStep)
    requires CanRead(c.data.ring, r)
    ensures c.qLocal <= DoReceive(c, r).qLocal && DoReceive(c, r).qApp == c.qApp
  {
    hide CanRead, Read, TakenLen, View, BufferOf;
  }

  lemma ReleaseHolds(c: Channel, e: nat)
    requires CanWrite(c.free.ring, Place(Slot(0, 0)))
    ensures DoRelease(c, e).qLocal == c.qLocal && DoRelease(c, e).qApp == c.qApp - multiset{e}
  {
    hide CanWrite, Write, BufferOf, DescLen;
    CanPlaceAny(c.free.ring, Slot(0, 0));
  }

  lemma HolderSpared(c: Channel, t: Step, d: nat)
    requires ChannelInv(c) && Enabled(c, t) && (d in c.qLocal || d in c.qApp) && t != Hold(d)
    requires ProducerStep(t) || (ConsumerStep(t) && !GivesBack(t, d))
    ensures BufferOf(Apply(c, t), d) == BufferOf(c, d)
  {
    hide ChannelInv, Enabled, Apply, BufferOf;
    NoSeed(t);
    if ProducerStep(t) {
      Spared(c, t, d);
    } else {
      DescPart(c);
      UntouchedBuffer(c, t, d);
    }
  }

  lemma HoldView(c: Channel, d: nat)
    requires ChannelInv(c) && Enabled(c, Hold(d))
    ensures View(BufferOf(Apply(c, Hold(d)), d)) == View(BufferOf(c, d))
  {
    hide ChannelInv, BufferOf, View, DoHold;
    HoldKeepsMessage(c, d);
  }

  /** From the time it is taken until it is given back, a message stays in its buffer as it was
      delivered, over any run, held by the application or not. */
  lemma {:induction false} ReceivedStays(s: State, g: Config, side: Side, d: nat, m: Msg, es: seq<Event>, t: State)
    requires Inv(s, g) && s.phase.Ready? && Reaches(s, es, t) && Has(RxChannel(s, side), d, m)
    requires forall e | e in es :: !(e.Consume? && e.side == side && GivesBack(e.step, d))
    ensures Has(RxChannel(t, side), d, m)
    decreases |es|
  {
    hide Inv, ChannelInv, Possible, Next, Has, GivesBack, Enabled, Apply, ProducerStep, ConsumerStep;
    if es != [] {
      var e := es[0];
      EventOnTx(s, g, Other(side), e);
      if Moves(e, Other(side)) { HasKept(RxChannel(s, side), e.step, d, m); }
      EventKeeps(s, g, e);
      ReceivedStays(Next(s, e), g, side, d, m, es[1..], t);
    }
  }

  lemma ReceivedMessageStays(s: State, g: Config, side: Side, d: nat, m: Msg, es: seq<Event>, t: State)
    requires Reachable(s, g) && s.phase.Ready? && Reaches(s, es, t) && Has(RxChannel(s, side), d, m)
    requires forall e | e in es :: !(e.Consume? && e.side == side && GivesBack(e.step, d))
    ensures Has(RxChannel(t, side), d, m)
  {
    hide Reachable, Inv, Reaches, Has;
    ReachableInv(s, g);
    ReceivedStays(s, g, side, d, m, es, t);
  }
}
