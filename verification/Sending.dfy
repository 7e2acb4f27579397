/** The steps between getting a transmit buffer and publishing it, with the peer moving between them. */
module Sending {
  import opened Words
  import opened Lanes
  import opened Channels
  import opened ChannelSteps
  import opened System
  import opened SystemProof
  import opened LinkTheorems
  import opened Ownership
  import opened ChannelCalls
  import P = Publication

  /** The producer has one more buffer; the rest of its side is as it was. */
  ghost predicate GotBuffer(c: Channel, c': Channel, d: nat) {
    && ChannelInv(c') && c'.cfg == c.cfg && c'.desc == c.desc && c'.sent == c.sent
    && c'.pLocal == c.pLocal + multiset{d} && c'.pApp == c.pApp
    && c'.data.ring.writer == c.data.ring.writer && c'.free.ring.reader.RIdle?
    && BuffersSame(c, c', c.pLocal + c.pApp)
  }

  lemma AllocatedAfter(c: Channel, c1: Channel, c2: Channel, d: nat)
    requires ProducerSame(c, c1) && Allocated(c1, c2, d)
    ensures GotBuffer(c, c2, d)
  {
    hide ChannelInv, Pending, BufferOf;
  }

  lemma ProducerSameSelf(c: Channel)
    ensures ProducerSame(c, c)
  {
  }

  lemma ProducerSameTwice(c: Channel, c1: Channel, c2: Channel)
    requires ProducerSame(c, c1) && ProducerSame(c1, c2)
    ensures ProducerSame(c, c2)
  {
    hide BufferOf;
  }

  /** One message more has been sent from the buffer of d; the producer's other buffers are as they were. */
  ghost predicate Delivered(c: Channel, c': Channel, d: nat, m: Msg) {
    && ChannelInv(c') && SendFrame(c, c', d)
    && c'.sent == c.sent + [m]
    && c'.data.log == c.data.log + [MakeItem(c.data.ring.kind, d, c.cfg.bufferSize)]
    && c'.data.ring.writer.WIdle?
  }

  /** Before that: d is with the caller, its buffer holds b, and nothing has been sent. */
  ghost predicate Prepared(c: Channel, c': Channel, d: nat, b: Buffer) {
    && ChannelInv(c') && SendFrame(c, c', d) && c'.sent == c.sent && c'.data.log == c.data.log
    && c'.pLocal == c.pLocal && c'.pApp == c.pApp && c'.data.ring.writer.WIdle?
    && BufferOf(c', d) == b
  }

  lemma PreparedStart(c: Channel, d: nat)
    requires ChannelInv(c) && c.data.ring.writer.WIdle?
    ensures Prepared(c, c, d, BufferOf(c, d))
  {
    hide ChannelInv, BufferOf;
  }

  /** The buffer of d is held once. */
  lemma OthersKept(c: Channel, d: nat, e: nat)
    requires ChannelInv(c) && (d in c.pLocal || d in c.pApp) && e in c.pLocal + c.pApp - multiset{d}
    ensures e != d
  {
    hide LaneInv, LensOk, Stashed, Fifo, DescOk;
    assert Total(c)[d] <= 1;
  }

  lemma EditShape(c: Channel, t: Step, d: nat)
    requires Enabled(c, t) && P.Edits(t, d) && (t.Header? || t.Copy?)
    ensures Apply(c, t) == c.(mem := Apply(c, t).mem) && ProducerStep(t) && Touched(t) == multiset{d}
  {
    hide BufferOf, SetBuffer;
    if t.Header? {
      BufferFrame(c, d, BufferOf(c, d).(src := t.src, dst := t.dst, len := t.size % U16, flags := t.flags % U16));
    } else {
      CopyFrame(c, d, t.bytes);
    }
  }

  /** Writing the header or the payload. */
  lemma Edit(c: Channel, c1: Channel, d: nat, b: Buffer, t: Step)
    requires ChannelInv(c) && (d in c.pLocal || d in c.pApp)
    requires Prepared(c, c1, d, b) && Enabled(c1, t) && P.Edits(t, d) && (t.Header? || t.Copy?)
    ensures Prepared(c, Apply(c1, t), d, P.Edited(b, t))
  {
    hide ChannelInv, Enabled, Apply, BufferOf, Touched;
    StepKeeps(c1, t);
    EditShape(c1, t, d);
    P.EditMoves(c1, t, d);
    DescPart(c1);
    forall e | e in c.pLocal + c.pApp - multiset{d} ensures BufferOf(Apply(c1, t), e) == BufferOf(c, e) {
      OthersKept(c, d, e);
      UntouchedBuffer(c1, t, e);
    }
  }

  lemma PeerWhilePreparing(c: Channel, c1: Channel, c2: Channel, d: nat, b: Buffer)
    requires (d in c.pLocal || d in c.pApp) && Prepared(c, c1, d, b) && PeerMoved(c1, c2)
    ensures Prepared(c, c2, d, b)
  {
    hide ChannelInv, BufferOf, OnlyRead, WrittenSame;
  }

  lemma SentPrepared(c: Channel, c1: Channel, c2: Channel, d: nat, b: Buffer)
    requires Prepared(c, c1, d, b) && Sent(c1, c2, d)
    ensures Delivered(c, c2, d, View(b))
  {
    hide ChannelInv, View, BufferOf;
  }

  lemma PreparedFacts(c: Channel, c': Channel, d: nat, b: Buffer)
    requires Prepared(c, c', d, b)
    ensures ChannelInv(c') && c'.pLocal == c.pLocal && c'.pApp == c.pApp && c'.data.ring.writer.WIdle?
    ensures c'.cfg == c.cfg && BufferOf(c', d) == b
  {
    hide ChannelInv, BufferOf;
  }

  /** `rpmsg_lite_format_message` from the header to `vq_tx`, the peer moving all the while: what is
      published is the caller's message, of which the 16-bit length field keeps `size` modulo 2^16 bytes. */
  method FormatMessage(c: Channel, d: nat, src: u32, dst: u32, bytes: seq<u8>, flags: nat) returns (c': Channel)
    requires ChannelInv(c) && d in c.pLocal && c.data.ring.writer.WIdle? && |bytes| <= c.cfg.payloadSize
    ensures Delivered(c, c', d, Msg(src, dst, Cut(bytes)))
    ensures c'.pLocal == c.pLocal - multiset{d} && c'.pApp == c.pApp
  {
    hide ChannelInv, BufferOf, HasBuffer, SetBuffer, Sent, Delivered, Prepared, PeerMoved, DoHeader, DoCopy, Cut, View;
    ghost var b0, t1, t2 := BufferOf(c, d), Header(d, src, dst, |bytes|, flags), Copy(d, bytes);
    ghost var b1 := P.Edited(b0, t1);
    ghost var b2 := P.Edited(b1, t2);
    FormattedMessage(c, d, src, dst, bytes, flags);
    PreparedStart(c, d);
    Edit(c, c, d, b0, t1);
    var c1 := DoHeader(c, d, src, dst, |bytes|, flags);
    PreparedFacts(c, c1, d, b1);
    var c2 := PeerMoves(c1);
    PeerWhilePreparing(c, c1, c2, d, b1);
    PreparedFacts(c, c2, d, b1);
    Edit(c, c2, d, b1, t2);
    var c3 := DoCopy(c2, d, bytes);
    PreparedFacts(c, c3, d, b2);
    var c4 := PeerMoves(c3);
    PeerWhilePreparing(c, c3, c4, d, b2);
    PreparedFacts(c, c4, d, b2);
    c' := VqTx(c4, d);
    SentPrepared(c, c4, c', d, b2);
  }

  lemma FormattedMessage(c: Channel, d: nat, src: u32, dst: u32, bytes: seq<u8>, flags: nat)
    requires ChannelInv(c) && d in c.pLocal && |bytes| <= c.cfg.payloadSize
    ensures var b := P.Edited(BufferOf(c, d), Header(d, src, dst, |bytes|, flags));
            View(P.Edited(b, Copy(d, bytes))) == Msg(src, dst, Cut(bytes))
  {
    hide ChannelInv, BufferOf, View, Cut;
    HeldBuffer(c, d);
    Sizes(c);
    var b1 := P.Edited(BufferOf(c, d), Header(d, src, dst, |bytes|, flags));
    FormattedView(b1, P.Edited(b1, Copy(d, bytes)), bytes);
  }

  /** `rpmsg_lite_send_nocopy` from the header to `vq_tx`, on a buffer that the application has filled. */
  method SendFilled(c: Channel, d: nat, src: u32, dst: u32, size: nat) returns (c': Channel)
    requires ChannelInv(c) && d in c.pApp && c.data.ring.writer.WIdle? && size <= c.cfg.payloadSize
    ensures Delivered(c, c', d, Msg(src, dst, Cut(Filled(c, d, size))))
    ensures c'.pLocal == c.pLocal && c'.pApp == c.pApp - multiset{d}
  {
    hide ChannelInv, BufferOf, HasBuffer, SetBuffer, Sent, Delivered, Prepared, PeerMoved, DoHeader, Cut, View, Filled;
    ghost var b0, t := BufferOf(c, d), Header(d, src, dst, size, 0);
    FilledMessage(c, d, src, dst, size);
    PreparedStart(c, d);
    Edit(c, c, d, b0, t);
    var c1 := DoHeader(c, d, src, dst, size, 0);
    PreparedFacts(c, c1, d, P.Edited(b0, t));
    var c2 := PeerMoves(c1);
    PeerWhilePreparing(c, c1, c2, d, P.Edited(b0, t));
    PreparedFacts(c, c2, d, P.Edited(b0, t));
    c' := VqTxNoCopy(c2, d);
    SentPrepared(c, c2, c', d, P.Edited(b0, t));
  }

  /** The first size bytes of what the application has written. */
  function Filled(c: Channel, d: nat, size: nat): (r: seq<u8>)
    ensures r <= BufferOf(c, d).payload
    ensures |r| == if size <= |BufferOf(c, d).payload| then size else |BufferOf(c, d).payload|
  {
    var p := BufferOf(c, d).payload;
    if size <= |p| then p[..size] else p
  }

  lemma FilledMessage(c: Channel, d: nat, src: u32, dst: u32, size: nat)
    requires ChannelInv(c) && d in c.pApp && size <= c.cfg.payloadSize
    ensures View(P.Edited(BufferOf(c, d), Header(d, src, dst, size, 0))) == Msg(src, dst, Cut(Filled(c, d, size)))
  {
    hide ChannelInv, View, HasBuffer, Cut, Filled;
    HeldBuffer(c, d);
    Sizes(c);
    FilledView(c, d, P.Edited(BufferOf(c, d), Header(d, src, dst, size, 0)), size);
  }

  lemma FilledView(c: Channel, d: nat, b: Buffer, size: nat)
    requires b.payload == BufferOf(c, d).payload && size <= |b.payload| && b.len == size % U16
    ensures View(b) == Msg(b.src, b.dst, Cut(Filled(c, d, size)))
  {
    var p := b.payload;
    assert p[..size][..size % U16] == p[..size % U16];
  }
}
