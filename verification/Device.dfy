/** One side of a link at run time (`struct rpmsg_lite_instance` and `rpmsg_queue.c`): the receive
    callback, sending with and without copying, releasing, and the blocking receive queue.
 */
module Devices {
  import opened Words
  import opened Lanes
  import opened Channels
  import opened ChannelSteps
  import opened SystemProof
  import opened LinkTheorems
  import opened Ownership
  import opened Calls
  import opened Virtqueues
  import opened ChannelCalls
  import opened Sending
  import opened Polling
  import opened Endpoints
  import opened Outcomes

  const RL_ERR_NO_MEM := -5001
  const RL_ERR_BUFF_SIZE := -5002
  const RL_ERR_NO_BUFF := -5006
  const RL_NOT_READY := -5007

  // ---- what one run of the receive callback has to do

  function Zip(p: seq<Slot>, q: seq<Msg>): seq<Job> {
    if p == [] || q == [] then [] else [Job(p[0].id, q[0])] + Zip(p[1..], q[1..])
  }

  /** The pending messages, oldest first. */
  function Jobs(c: Channel): seq<Job> {
    Zip(Pending(c.data), Queue(c))
  }

  function SlotsOf(kind: Kind, ds: seq<nat>, len: nat): (s: seq<Slot>)
    ensures |s| == |ds|
  {
    seq(|ds|, i requires 0 <= i < |ds| => MakeItem(kind, ds[i], len))
  }

  lemma JobsLength(c: Channel)
    requires ChannelInv(c)
    ensures |Jobs(c)| == |Pending(c.data)| == |Queue(c)|
  {
    hide LaneInv, DescOk, Conserved, LensOk, Stashed;
    ZipLength(Pending(c.data), Queue(c));
  }

  lemma {:induction false} ZipLength(p: seq<Slot>, q: seq<Msg>)
    requires |p| == |q|
    ensures |Zip(p, q)| == |p|
  {
    if p != [] { ZipLength(p[1..], q[1..]); }
  }

  lemma {:induction false} ZipIndex(p: seq<Slot>, q: seq<Msg>, i: nat)
    requires i < |p| == |q|
    ensures |Zip(p, q)| == |p| && Zip(p, q)[i] == Job(p[i].id, q[i])
  {
    if i > 0 { ZipIndex(p[1..], q[1..], i - 1); } else { ZipLength(p[1..], q[1..]); }
  }

  /** The jobs are the pending entries of the data ring, and their messages what was sent with them and
      still is in their buffers. */
  lemma JobIs(c: Channel, i: nat)
    requires ChannelInv(c) && i < |Jobs(c)|
    ensures |Jobs(c)| == |Pending(c.data)| == |c.sent| - |c.delivered|
    ensures Jobs(c)[i].d == Pending(c.data)[i].id && Jobs(c)[i].m == c.sent[|c.delivered| + i]
    ensures View(BufferOf(c, Jobs(c)[i].d)) == Jobs(c)[i].m
  {
    hide LaneInv, DescOk, Conserved, LensOk, Stashed, View, BufferOf, Zip;
    JobsLength(c);
    ZipIndex(Pending(c.data), Queue(c), i);
    assert c.data.log[c.data.taken + i] == Pending(c.data)[i];
  }

  /** Receiving takes the first job, and its message is in its buffer. */
  lemma ReceiveJob(c: Channel, c': Channel, d: nat)
    requires ChannelInv(c) && Received(c, c', d)
    ensures Jobs(c) != [] && Jobs(c)[0].d == d && View(BufferOf(c', d)) == Jobs(c)[0].m
    ensures Jobs(c') == Jobs(c)[1..]
  {
    hide ChannelInv, Pending, View, BufferOf, Zip;
    FifoPart(c);
    ReceivedQueue(c, c', d);
    SameMessage(c, c', d);
    ZipHead(Pending(c.data), Queue(c));
  }

  lemma ZipHead(p: seq<Slot>, q: seq<Msg>)
    requires p != [] && q != []
    ensures Zip(p, q) == [Job(p[0].id, q[0])] + Zip(p[1..], q[1..])
    ensures Zip(p, q)[1..] == Zip(p[1..], q[1..])
  {
  }

  lemma ReceivedQueue(c: Channel, c': Channel, d: nat)
    requires ChannelInv(c) && Received(c, c', d)
    ensures Queue(c) != [] && Queue(c)[0] == View(BufferOf(c, d)) && Queue(c') == Queue(c)[1..]
  {
    hide ChannelInv, View, BufferOf, Received, Fifo, Queue;
    ReceivedParts(c, c', d);
    FifoPart(c);
    FifoPart(c');
    QueueMoves(c, c', Msg(0, 0, []), false, true);
    LastOf(c.delivered, Queue(c)[0], View(BufferOf(c, d)));
  }

  lemma LastOf<T>(s: seq<T>, a: T, b: T)
    requires s + [a] == s + [b]
    ensures a == b
  {
    assert (s + [a])[|s|] == a;
  }

  lemma ReceivedParts(c: Channel, c': Channel, d: nat)
    requires Received(c, c', d)
    ensures ChannelInv(c') && c'.sent == c.sent && c'.delivered == c.delivered + [View(BufferOf(c, d))]
  {
    hide ChannelInv, Pending, View, BufferOf;
  }

  /** The checks of `rpmsg_lite_send` and `rpmsg_lite_format_message`, in their order. */
  function Refusal(ept: Option<u32>, size: u32, payloadSize: nat, given: bool, linkState: u32): int {
    if ept.None? then RL_ERR_PARAM
    else if size > payloadSize then RL_ERR_BUFF_SIZE
    else if !given then RL_ERR_PARAM
    else if linkState != 1 then RL_NOT_READY
    else RL_SUCCESS
  }

  // ---- the turns of the receive callback

  /** After the first k jobs: held messages are with the application, the others on the free ring. */
  ghost predicate Turns(a: Answer, es: seq<Endpoint>, c0: Channel, c: Channel, js: seq<Job>, k: nat) {
    && ChannelInv(c) && k <= |js|
    && c.sent == c0.sent && c.cfg == c0.cfg && c.desc == c0.desc
    && c.pLocal == c0.pLocal && c.pApp == c0.pApp
    && c.free.ring.kind == c0.free.ring.kind && c.free.ring.writer.WIdle?
    && c.data.ring.reader.RIdle?
    && c.qApp == c0.qApp + multiset(HeldBy(a, es, js[..k]))
    && c.free.log == c0.free.log + SlotsOf(c0.free.ring.kind, ReturnedBy(a, es, js[..k]), c0.cfg.bufferSize)
  }

  /** Between two jobs nothing is local to the loop. */
  ghost predicate Between(c: Channel, js: seq<Job>, k: nat) {
    k <= |js| && Jobs(c) == js[k..] && c.qLocal == multiset{}
  }

  /** The loop's variable: the message of job k, or none at the end. */
  ghost predicate Current(c: Channel, js: seq<Job>, k: nat, msg: Option<nat>) {
    match msg
    case None => k == |js| && Between(c, js, k)
    case Some(d) =>
      && k < |js| && Jobs(c) == js[k + 1..] && c.qLocal == multiset{d}
      && js[k].d == d && View(BufferOf(c, d)) == js[k].m
  }

  lemma TurnsStart(a: Answer, es: seq<Endpoint>, c: Channel)
    requires ChannelInv(c) && c.free.ring.writer.WIdle? && c.data.ring.reader.RIdle?
    ensures Turns(a, es, c, c, Jobs(c), 0)
  {
    hide ChannelInv, Jobs;
    assert Jobs(c)[..0] == [];
  }

  /** Calling `vq_rx` between two jobs. */
  lemma NextJob(a: Answer, es: seq<Endpoint>, c0: Channel, c: Channel, js: seq<Job>, k: nat,
                c': Channel, msg: Option<nat>)
    requires Turns(a, es, c0, c, js, k) && Between(c, js, k)
    requires msg.None? <==> Pending(c.data) == []
    requires msg.None? ==> c' == c
    requires msg.Some? ==> Received(c, c', msg.value)
    ensures Turns(a, es, c0, c', js, k) && Current(c', js, k, msg)
  {
    hide ChannelInv, Jobs, HeldBy, ReturnedBy, Pending, View, BufferOf, SlotsOf;
    JobsLength(c);
    if msg.Some? {
      ReceiveJob(c, c', msg.value);
      assert js[k..][1..] == js[k + 1..];
    } else {
      assert js[k..] == [];
    }
  }

  lemma HeldNext(a: Answer, es: seq<Endpoint>, js: seq<Job>, k: nat)
    requires k < |js|
    ensures if Holds(a, es, js[k].m) then
              && HeldBy(a, es, js[..k + 1]) == HeldBy(a, es, js[..k]) + [js[k].d]
              && ReturnedBy(a, es, js[..k + 1]) == ReturnedBy(a, es, js[..k])
            else
              && HeldBy(a, es, js[..k + 1]) == HeldBy(a, es, js[..k])
              && ReturnedBy(a, es, js[..k + 1]) == ReturnedBy(a, es, js[..k]) + [js[k].d]
  {
    hide Holds;
    assert js[..k + 1][..k] == js[..k];
  }

  /** A turn that holds its message, */
  lemma HoldTurn(a: Answer, es: seq<Endpoint>, c0: Channel, c: Channel, js: seq<Job>, k: nat, d: nat)
    requires Turns(a, es, c0, c, js, k) && Current(c, js, k, Some(d)) && Holds(a, es, js[k].m)
    ensures ChannelInv(DoHold(c, d))
    ensures Turns(a, es, c0, DoHold(c, d), js, k + 1) && Between(DoHold(c, d), js, k + 1)
  {
    hide ChannelInv, Jobs, HeldBy, ReturnedBy, View, BufferOf, SlotsOf, Holds;
    HoldKeeps(c, d);
    HoldShape(c, d);
    HeldNext(a, es, js, k);
    OneMore(HeldBy(a, es, js[..k]), d);
  }

  lemma OneMore(s: seq<nat>, d: nat)
    ensures multiset(s + [d]) == multiset(s) + multiset{d}
  {
  }

  lemma HoldShape(c: Channel, d: nat)
    ensures var c' := DoHold(c, d);
            && c' == c.(mem := c'.mem, qLocal := c.qLocal - multiset{d}, qApp := c.qApp + multiset{d})
            && Jobs(c') == Jobs(c)
  {
    hide Zip, Pending;
    BufferFrame(c, d, BufferOf(c, d).(idx := d % U16));
  }

  /** and one that returns it. */
  lemma ReturnTurn(a: Answer, es: seq<Endpoint>, c0: Channel, c: Channel, js: seq<Job>, k: nat, d: nat, c': Channel)
    requires Turns(a, es, c0, c, js, k) && Current(c, js, k, Some(d)) && !Holds(a, es, js[k].m)
    requires Returned(c, c', d) && c'.qLocal == c.qLocal - multiset{d} && c'.qApp == c.qApp
    ensures Turns(a, es, c0, c', js, k + 1) && Between(c', js, k + 1)
  {
    hide ChannelInv, Jobs, HeldBy, ReturnedBy, View, BufferOf, SlotsOf, Holds;
    ReturnedShape(c, c', d);
    HeldNext(a, es, js, k);
    NextSlot(c0.free.ring.kind, ReturnedBy(a, es, js[..k]), d, c0.cfg.bufferSize);
  }

  lemma NextSlot(kind: Kind, ds: seq<nat>, d: nat, len: nat)
    ensures SlotsOf(kind, ds + [d], len) == SlotsOf(kind, ds, len) + [MakeItem(kind, d, len)]
  {
  }

  lemma ReturnedShape(c: Channel, c': Channel, d: nat)
    requires Returned(c, c', d)
    ensures ChannelInv(c') && Jobs(c') == Jobs(c)
    ensures c' == c.(free := c'.free, qLocal := c'.qLocal, qApp := c'.qApp, mem := c'.mem)
    ensures c'.free.ring.kind == c.free.ring.kind && c'.free.ring.writer.WIdle?
    ensures c'.free.log == c.free.log + [MakeItem(c.free.ring.kind, d, c.cfg.bufferSize)]
  {
    hide ChannelInv, Zip, Pending, BufferOf;
  }

  // ---- the receive queue

  /** Queued messages and those handed out without copying are with the application, each once, and
      a queued message is still in its buffer. */
  ghost predicate QueueOk(c: Channel, items: seq<Job>, out: multiset<nat>) {
    && multiset(DsOf(items)) + out <= c.qApp
    && forall i | 0 <= i < |items| :: View(BufferOf(c, items[i].d)) == items[i].m
  }

  lemma QueuedIsHeld(c: Channel, items: seq<Job>, out: multiset<nat>, i: nat)
    requires QueueOk(c, items, out) && i < |items|
    ensures items[i].d in c.qApp
  {
    assert DsOf(items)[i] == items[i].d;
    assert items[i].d in multiset(DsOf(items)) + out;
  }

  /** Messages in the queue and messages handed out never outnumber the ring. */
  lemma QueueBound(c: Channel, items: seq<Job>, out: multiset<nat>)
    requires ChannelInv(c) && QueueOk(c, items, out)
    ensures |items| + |out| + |c.qLocal| <= c.cfg.n
  {
    hide LaneInv, LensOk, Stashed, Fifo;
    var rest := c.qApp - (multiset(DsOf(items)) + out);
    assert c.qApp == multiset(DsOf(items)) + out + rest;
    assert |Total(c)| == |c.desc|;
  }

  /** The queue survives whatever leaves the held buffers' contents alone. */
  lemma QueueKeeps(c: Channel, c': Channel, items: seq<Job>, out: multiset<nat>)
    requires QueueOk(c, items, out) && c.qApp <= c'.qApp
    requires forall d | d in c.qApp :: View(BufferOf(c', d)) == View(BufferOf(c, d))
    ensures QueueOk(c', items, out)
  {
    hide View, BufferOf;
    forall i | 0 <= i < |items| ensures View(BufferOf(c', items[i].d)) == items[i].m {
      QueuedIsHeld(c, items, out, i);
    }
  }

  lemma HoldKeepsQueue(c: Channel, d: nat, items: seq<Job>, out: multiset<nat>)
    requires ChannelInv(c) && d in c.qLocal && QueueOk(c, items, out)
    ensures QueueOk(DoHold(c, d), items, out)
    ensures QueueOk(DoHold(c, d), items + [Job(d, View(BufferOf(c, d)))], out)
  {
    hide ChannelInv, View, BufferOf;
    var c' := DoHold(c, d);
    OnePlace(c, d);
    DescPart(c);
    HoldShape(c, d);
    forall e | e in c.qApp ensures BufferOf(c', e) == BufferOf(c, e) { HoldOnly(c, d, e); }
    QueueKeeps(c, c', items, out);
    HoldKeepsMessage(c, d);
    QueueAdd(c', items, out, Job(d, View(BufferOf(c, d))), c.qApp);
  }

  lemma QueueAdd(c: Channel, items: seq<Job>, out: multiset<nat>, j: Job, apps: multiset<nat>)
    requires QueueOk(c, items, out) && multiset(DsOf(items)) + out <= apps && c.qApp == apps + multiset{j.d}
    requires View(BufferOf(c, j.d)) == j.m
    ensures QueueOk(c, items + [j], out)
  {
    hide View, BufferOf;
    assert DsOf(items + [j]) == DsOf(items) + [j.d];
  }

  lemma ReturnKeepsQueue(c: Channel, c': Channel, d: nat, items: seq<Job>, out: multiset<nat>)
    requires ChannelInv(c) && d !in c.qApp && Returned(c, c', d) && c'.qApp == c.qApp && QueueOk(c, items, out)
    ensures QueueOk(c', items, out)
  {
    hide ChannelInv, View, BufferOf;
    forall e | e in c.qApp ensures BufferOf(c', e) == BufferOf(c, e) { }
    QueueKeeps(c, c', items, out);
  }

  lemma ReceiveKeepsQueue(c: Channel, c': Channel, d: nat, items: seq<Job>, out: multiset<nat>)
    requires Received(c, c', d) && QueueOk(c, items, out)
    ensures QueueOk(c', items, out)
  {
    hide ChannelInv, View, BufferOf, Pending;
    forall e | e in c.qApp ensures BufferOf(c', e) == BufferOf(c, e) { SameMessage(c, c', e); }
    QueueKeeps(c, c', items, out);
  }

  method FindHandler(table: Table, addr: u32) returns (e: Option<Endpoint>)
    requires table.Valid()
    ensures e == Handler(table.Contents(), addr)
  {
    hide Distinct, Uses;
    var node, k := table.Find(addr);
    if node == null {
      HandlerMissing(table.Contents(), addr);
      return None;
    }
    HandlerFound(table.Contents(), addr, k);
    e := Some(node.data);
  }

  /** The queue of `rpmsg_queue_create`, a bounded FIFO of the environment layer. */
  class RxQueue {
    const capacity: nat
    var items: seq<Job>

    constructor (nentries: u16)
      ensures capacity == 2 * nentries && items == []
    {
      capacity, items := 2 * nentries, [];
    }

    /** `env_put_queue` without waiting */
    method Put(j: Job) returns (ok: bool)
      modifies this`items
      ensures ok == (|old(items)| < capacity)
      ensures items == if ok then old(items) + [j] else old(items)
    {
      ok := |items| < capacity;
      if ok { items := items + [j]; }
    }

    /** `env_get_queue`; none when the queue stays empty for the whole time-out */
    method Get() returns (j: Option<Job>)
      modifies this`items
      ensures if old(items) == [] then j.None? && items == []
              else j == Some(old(items)[0]) && items == old(items)[1..]
    {
      if items == [] { return None; }
      j, items := Some(items[0]), items[1..];
    }

    /** `rpmsg_queue_rx_cb` */
    method RxCb(j: Job) returns (hold: bool)
      modifies this`items
      ensures hold == (|old(items)| < capacity)
      ensures items == if hold then old(items) + [j] else old(items)
    {
      hold := Put(j);
    }
  }

  lemma {:induction false} NextCalls(es: seq<Endpoint>, js: seq<Job>, k: nat)
    requires k < |js|
    ensures CallsFor(es, js[..k + 1]) == CallsFor(es, js[..k]) + CallFor(es, js[k])
    ensures QueuedBy(es, js[..k + 1]) == QueuedBy(es, js[..k]) + Queued(es, js[k])
  {
    assert js[..k + 1][..k] == js[..k];
  }

  /** The two ends of a turn, after the callback has answered. */
  method HoldOrReturn(c: Channel, d: nat, hold: bool, ghost a: Answer, ghost es: seq<Endpoint>, ghost c0: Channel,
                      ghost js: seq<Job>, ghost k: nat, ghost items: seq<Job>, ghost out: multiset<nat>)
    returns (c': Channel)
    requires Turns(a, es, c0, c, js, k) && Current(c, js, k, Some(d)) && QueueOk(c, items, out)
    requires hold == Holds(a, es, js[k].m)
    ensures Turns(a, es, c0, c', js, k + 1) && Between(c', js, k + 1) && c'.cfg == c.cfg
    ensures QueueOk(c', items, out) && (hold ==> QueueOk(c', items + [js[k]], out))
    ensures hold ==> c'.qApp == c.qApp + multiset{d} && c'.free == c.free
    ensures !hold ==>
              && c'.qApp == c.qApp
              && c'.free.log == c.free.log + [MakeItem(c.free.ring.kind, d, c.cfg.bufferSize)]
  {
    hide ChannelInv, Turns, Between, Current, QueueOk, View, BufferOf, Holds, DoHold, Returned;
    TurnFacts(a, es, c0, c, js, k, d);
    TurnsIdle(a, es, c0, c, js, k);
    if hold {
      HoldTurn(a, es, c0, c, js, k, d);
      HoldKeepsQueue(c, d, items, out);
      HoldShape(c, d);
      c' := DoHold(c, d);
    } else {
      c' := VqRxFree(c, d, true);
      ReturnTurn(a, es, c0, c, js, k, d, c');
      ReturnedShape(c, c', d);
      ReturnKeepsQueue(c, c', d, items, out);
    }
    TurnsIdle(a, es, c0, c', js, k + 1);
  }

  // ---- the instance

  /** What a call that waits for a buffer does: look for one, or sleep. */
  datatype Poll = Looked(found: bool) | Slept(ms: u32)

  /** Looks with a sleep of one interval between any two, of which at most the last one is successful. */
  function Polls(looks: nat, interval: u32, found: bool): (r: seq<Poll>)
    requires 1 <= looks
    ensures |r| == 2 * looks - 1
    ensures forall i | 0 <= i < |r| ::
              r[i] == if i % 2 == 1 then Slept(interval) else Looked(found && i == |r| - 1)
  {
    if looks == 1 then [Looked(found)] else Polls(looks - 1, interval, false) + [Slept(interval), Looked(found)]
  }

  lemma FirstPoll(interval: u32, found: bool)
    ensures Polls(1, interval, found) == [Looked(found)]
  {
  }

  lemma NextPolls(before: seq<Poll>, looks: nat, interval: u32, found: bool)
    requires 1 <= looks
    ensures before + Polls(looks, interval, false) + [Slept(interval)] + [Looked(found)]
            == before + Polls(looks + 1, interval, found)
  {
  }

  lemma CutWhole(bytes: seq<u8>)
    ensures |bytes| < U16 ==> Cut(bytes) == bytes
  {
  }

  lemma FilledWhole(c: Channel, d: nat, size: nat)
    requires ChannelInv(c) && d in c.pApp && size <= c.cfg.payloadSize
    ensures |Filled(c, d, size)| == size
  {
    hide ChannelInv, HasBuffer;
    HeldBuffer(c, d);
    Sizes(c);
  }

  /** No call is in progress on either channel. */
  ghost predicate Settled(rx: Channel, tx: Channel) {
    && ChannelInv(rx) && ChannelInv(tx)
    && rx.data.ring.reader.RIdle? && rx.free.ring.writer.WIdle? && rx.qLocal == multiset{}
    && tx.free.ring.reader.RIdle? && tx.data.ring.writer.WIdle? && tx.pLocal == multiset{}
  }

  class Device {
    var rx: Channel
    var tx: Channel
    var linkState: u32
    const table: Table
    const queue: RxQueue
    const answer: Answer
    const notifyFreed: bool       // RL_ALLOW_CONSUMED_BUFFERS_NOTIFICATION
    const interval: u32           // RL_MS_PER_INTERVAL
    ghost var out: multiset<nat>  // handed out by rpmsg_queue_recv_nocopy
    ghost var calls: seq<(Endpoint, Msg)>
    ghost var rvqKicks: nat
    ghost var tvqKicks: nat
    ghost var polls: seq<Poll>    // the looks for a free buffer and the sleeps between them

    /** The state after init: the master's link is up, the remote's is not. */
    constructor (rx: Channel, tx: Channel, table: Table, queue: RxQueue, answer: Answer, notifyFreed: bool,
                 interval: u32, master: bool)
      ensures this.rx == rx && this.tx == tx && this.table == table && this.queue == queue
      ensures this.answer == answer && this.notifyFreed == notifyFreed && this.interval == interval
      ensures linkState == (if master then 1 else 0)
      ensures out == multiset{} && calls == [] && rvqKicks == 0 && tvqKicks == 0 && polls == []
    {
      this.rx, this.tx, this.table, this.queue := rx, tx, table, queue;
      this.answer, this.notifyFreed, this.interval := answer, notifyFreed, interval;
      linkState, out, calls := if master then 1 else 0, multiset{}, [];
      rvqKicks, tvqKicks, polls := 0, 0, [];
    }

    ghost predicate Valid()
      reads this, table, table.nodes, queue
    {
      && Settled(rx, tx) && table.Valid()
      && queue.capacity == 2 * rx.cfg.n && QueueOk(rx, queue.items, out)
    }

    /** Calls the receive callback of the endpoint with a message. */
    method Callback(e: Endpoint, j: Job) returns (hold: bool)
      requires e.rxCb == QUEUE_CB ==> |queue.items| < queue.capacity
      modifies this`calls, queue`items
      ensures calls == old(calls) + [(e, j.m)]
      ensures hold == (e.rxCb == QUEUE_CB || answer(e, j.m))
      ensures queue.items == old(queue.items) + if e.rxCb == QUEUE_CB then [j] else []
    {
      calls := calls + [(e, j.m)];
      if e.rxCb == QUEUE_CB {
        hold := queue.RxCb(j);
      } else {
        hold := answer(e, j.m);
      }
    }

    /** One turn of the loop of `rpmsg_lite_rx_callback`: look up, call back, hold or return. A message for
        an address that no endpoint has goes to no callback and is returned; any other goes to the one
        endpoint with that address, once, and is held exactly if that endpoint holds it. */
    method Serve(d: nat, ghost c0: Channel, ghost js: seq<Job>, ghost k: nat) returns (freed: bool)
      requires table.Valid() && Turns(answer, table.Contents(), c0, rx, js, k) && Current(rx, js, k, Some(d))
      requires queue.capacity == 2 * rx.cfg.n && QueueOk(rx, queue.items, out)
      modifies this`rx, this`calls, queue`items
      ensures Turns(answer, table.Contents(), c0, rx, js, k + 1) && Between(rx, js, k + 1)
      ensures QueueOk(rx, queue.items, out) && table.Valid() && rx.cfg == old(rx.cfg)
      ensures freed == !Holds(answer, table.Contents(), js[k].m)
      ensures calls == old(calls) + CallFor(table.Contents(), js[k])
      ensures queue.items == old(queue.items) + Queued(table.Contents(), js[k])
      ensures !Uses(table.Contents(), js[k].m.dst) ==>
                freed && calls == old(calls) && queue.items == old(queue.items)
      ensures forall e | e in table.Contents() && e.addr == js[k].m.dst ::
                && calls == old(calls) + [(e, js[k].m)]
                && (freed <==> e.rxCb != QUEUE_CB && !answer(e, js[k].m))
                && queue.items == old(queue.items) + if e.rxCb == QUEUE_CB then [js[k]] else []
      ensures freed ==>
                && rx.qApp == old(rx.qApp)
                && rx.free.log == old(rx.free.log) + [MakeItem(old(rx.free.ring.kind), d, old(rx.cfg.bufferSize))]
      ensures !freed ==> rx.qApp == old(rx.qApp) + multiset{d} && rx.free.log == old(rx.free.log)
    {
      hide ChannelInv, Turns, Between, Current, QueueOk, View, BufferOf, Handler, Distinct, Uses, MakeItem;
      ghost var es := table.Contents();
      ghost var items := queue.items;
      TurnFacts(answer, es, c0, rx, js, k, d);
      CurrentBound(rx, js, k, Some(d));
      HandlerIsUser(answer, es, js[k]);
      QueueBound(rx, queue.items, out);
      var m := View(BufferOf(rx, d));
      var e := FindHandler(table, m.dst);
      var hold := false;
      assert calls + [] == calls && queue.items + [] == queue.items;
      if e.Some? {
        hold := Callback(e.value, Job(d, m));
      }
      rx := HoldOrReturn(rx, d, hold, answer, es, c0, js, k, items, out);
      freed := !hold;
    }

    /** The calls of `vq_rx` there. */
    method Next(ghost c0: Channel, ghost js: seq<Job>, ghost k: nat) returns (msg: Option<nat>)
      requires table.Valid() && Turns(answer, table.Contents(), c0, rx, js, k) && Between(rx, js, k)
      requires QueueOk(rx, queue.items, out)
      modifies this`rx
      ensures table.Valid() && Turns(answer, table.Contents(), c0, rx, js, k) && Current(rx, js, k, msg)
      ensures QueueOk(rx, queue.items, out) && rx.cfg == old(rx.cfg)
    {
      hide ChannelInv, Turns, Between, Current, QueueOk, Received, Pending, Distinct;
      TurnsIdle(answer, table.Contents(), c0, rx, js, k);
      var c;
      c, msg := VqRx(rx, true);
      AfterRx(answer, table.Contents(), c0, rx, js, k, c, msg, queue.items, out);
      rx := c;
    }

    /** The loop of `rpmsg_lite_rx_callback` and its kick, in terms of the endpoint that is looked up for
        each message. */
    method Drain() returns (ghost turns: nat)
      requires Valid()
      modifies this`rx, this`calls, this`rvqKicks, queue`items
      ensures Valid() && turns == old(|Jobs(rx)|) && Jobs(rx) == []
      ensures rx.sent == old(rx.sent) && rx.delivered == rx.sent
      ensures calls == old(calls) + CallsFor(table.Contents(), old(Jobs(rx)))
      ensures queue.items == old(queue.items) + QueuedBy(table.Contents(), old(Jobs(rx)))
      ensures rx.qApp == old(rx.qApp) + multiset(HeldBy(answer, table.Contents(), old(Jobs(rx))))
      ensures rx.free.log == old(rx.free.log)
              + SlotsOf(rx.free.ring.kind, ReturnedBy(answer, table.Contents(), old(Jobs(rx))), rx.cfg.bufferSize)
      ensures rvqKicks == old(rvqKicks)
              + if notifyFreed && ReturnedBy(answer, table.Contents(), old(Jobs(rx))) != [] then 1 else 0
    {
      hide ChannelInv, Turns, Between, Current, QueueOk, Received, Jobs, CallsFor, QueuedBy, HeldBy, ReturnedBy, Holds,
           CallFor, Queued, Distinct, SlotsOf, Uses, JobsAt;
      ghost var es, js, c0, calls0, items0 := table.Contents(), Jobs(rx), rx, calls, queue.items;
      turns := 0;
      StartTurns(answer, es, rx);
      var rxFreed := false;
      var msg := Next(c0, js, 0);
      while msg.Some?
        invariant table.Valid() && queue.capacity == 2 * rx.cfg.n && QueueOk(rx, queue.items, out)
        invariant Turns(answer, es, c0, rx, js, turns) && Current(rx, js, turns, msg) && turns <= |js|
        invariant calls == calls0 + CallsFor(es, js[..turns])
        invariant queue.items == items0 + QueuedBy(es, js[..turns])
        invariant rxFreed == (ReturnedBy(answer, es, js[..turns]) != [])
        invariant rvqKicks == old(rvqKicks) + if msg.None? && rxFreed && notifyFreed then 1 else 0
        decreases |js| - turns
      {
        CurrentBound(rx, js, turns, msg);
        HeldNext(answer, es, js, turns);
        NextCalls(es, js, turns);
        Regroup(calls0, CallsFor(es, js[..turns]), CallFor(es, js[turns]));
        Regroup(items0, QueuedBy(es, js[..turns]), Queued(es, js[turns]));
        var freed := Serve(msg.value, c0, js, turns);
        rxFreed := rxFreed || freed;
        turns := turns + 1;
        msg := Next(c0, js, turns);
        if msg.None? && rxFreed && notifyFreed {
          rvqKicks := rvqKicks + 1;
        }
      }
      EndTurns(answer, es, c0, rx, js, turns);
      assert js[..turns] == js;
    }

    /** `rpmsg_lite_rx_callback` with the peer quiet: as many turns as there are pending messages, in
        their order, until all that was sent has been delivered. The outcome tells by their places what
        became of them: a message is given to a callback if an endpoint has its destination, and then to
        that endpoint and once; it is kept if that is the queue's endpoint or the callback answers hold;
        otherwise its buffer is returned, once. One kick at the end if it is configured and anything was
        returned. */
    method RxCallback() returns (ghost turns: nat, ghost o: Outcome)
      requires Valid()
      modifies this`rx, this`calls, this`rvqKicks, queue`items
      ensures Valid() && turns == old(|Jobs(rx)|) && Jobs(rx) == []
      ensures rx.sent == old(rx.sent) && rx.delivered == rx.sent
      ensures Places(o.called, turns) && Places(o.kept, turns) && Places(o.back, turns) && Places(o.put, turns)
      ensures var js, es := old(Jobs(rx)), table.Contents();
              forall i: nat | i < turns ::
                && (i in o.called <==> Uses(es, js[i].m.dst))
                && (i in o.kept <==>
                      exists e | e in es :: e.addr == js[i].m.dst && (e.rxCb == QUEUE_CB || answer(e, js[i].m)))
                && (i in o.back <==> i !in o.kept)
                && (i in o.put <==> exists e | e in es :: e.addr == js[i].m.dst && e.rxCb == QUEUE_CB)
      ensures |calls| == |old(calls)| + |o.called| && calls[..|old(calls)|] == old(calls)
      ensures forall x | 0 <= x < |o.called| ::
                var call, m := calls[|old(calls)| + x], old(Jobs(rx))[o.called[x]].m;
                call.0 in table.Contents() && call.0.addr == m.dst && call.1 == m
      ensures queue.items == old(queue.items) + JobsAt(old(Jobs(rx)), o.put)
      ensures rx.qApp == old(rx.qApp) + multiset(DsOf(JobsAt(old(Jobs(rx)), o.kept)))
      ensures rx.free.log == old(rx.free.log)
              + SlotsOf(rx.free.ring.kind, DsOf(JobsAt(old(Jobs(rx)), o.back)), rx.cfg.bufferSize)
      ensures rvqKicks == old(rvqKicks) + if notifyFreed && o.back != [] then 1 else 0
    {
      hide ChannelInv, Jobs, CallsFor, QueuedBy, HeldBy, ReturnedBy, Uses, JobsAt, SlotsOf, DsOf, Settled, QueueOk,
           Distinct;
      o := OutcomeOf(answer, table.Contents(), Jobs(rx));
      turns := Drain();
    }

    /** `rpmsg_lite_tx_callback`: from now on a send is not refused for the link. */
    method TxCallback()
      modifies this`linkState
      ensures linkState == 1
      ensures forall e, size, limit, given :: Refusal(e, size, limit, given, linkState) != RL_NOT_READY
    {
      linkState := 1;
    }

    // ---- sending

    /** `env_sleep_msec`: the peer runs, and may take messages and return buffers. */
    method Sleep(ms: u32)
      requires ChannelInv(tx)
      modifies this`tx, this`polls
      ensures ChannelInv(tx) && ProducerSame(old(tx), tx) && polls == old(polls) + [Slept(ms)]
    {
      polls := polls + [Slept(ms)];
      ProducerSameSelf(tx);
    }

    /** One look for a free buffer, `vq_tx_alloc` under the lock. */
    method Look() returns (buffer: Option<nat>)
      requires ChannelInv(tx) && tx.free.ring.reader.RIdle?
      modifies this`tx, this`polls
      ensures buffer.None? <==> Pending(old(tx).free) == []
      ensures buffer.None? ==> tx == old(tx)
      ensures buffer.Some? ==> Allocated(old(tx), tx, buffer.value)
      ensures polls == old(polls) + [Looked(buffer.Some?)]
    {
      hide ChannelInv, Allocated, Pending;
      var c;
      c, buffer := VqTxAlloc(tx);
      tx, polls := c, polls + [Looked(buffer.Some?)];
    }

    /** The allocation loop of `rpmsg_lite_format_message` and `rpmsg_lite_alloc_tx_buffer`: looks with a
        sleep between any two, until one finds a buffer or the time-out is over. On a ring that stays
        empty it ends exactly under its precondition (see `EndsExactlyWhen`). */
    method AllocTx(timeout: u32) returns (buffer: Option<nat>, ghost looks: nat)
      requires ChannelInv(tx) && tx.free.ring.reader.RIdle?
      requires Ends(interval, timeout)
      modifies this`tx, this`polls
      ensures 1 <= looks && polls == old(polls) + Polls(looks, interval, buffer.Some?)
      ensures 1 < looks ==> timeout != 0 && Pending(old(tx).free) == []
      ensures forall k | 1 <= k < looks - 1 :: !GivesUp(k, interval, timeout)
      ensures buffer.None? ==> ChannelInv(tx) && ProducerSame(old(tx), tx) && LastLook(looks, interval, timeout)
      ensures buffer.None? ==> Pending(old(tx).free) == [] && Pending(tx.free) == []
      ensures buffer.Some? ==> GotBuffer(old(tx), tx, buffer.value)
    {
      hide ChannelInv, ProducerSame, GotBuffer, Allocated, Pending, GivesUp, Ends, Polls;
      ghost var c0, polls0 := tx, polls;
      ghost var limit := SomeLook(interval, timeout);
      ProducerSameSelf(c0);
      buffer := Look();
      Attempted(c0, c0, tx, buffer);
      FirstPoll(interval, buffer.Some?);
      looks := 1;
      if buffer.None? && timeout == 0 {
        return;
      }
      var tick: u32 := 0;
      while buffer.None?
        invariant 1 <= looks && tick == Tick(looks - 1, interval)
        invariant polls == polls0 + Polls(looks, interval, buffer.Some?)
        invariant timeout == 0 ==> looks == 1 && buffer.Some?
        invariant buffer.None? ==> ChannelInv(tx) && ProducerSame(c0, tx) && tx.free.ring.reader.RIdle?
        invariant buffer.Some? ==> GotBuffer(c0, tx, buffer.value)
        invariant buffer.None? ==> looks <= limit
        invariant looks <= 1 + limit
        invariant forall k | 1 <= k < looks - 1 :: !GivesUp(k, interval, timeout)
        invariant buffer.None? || 1 < looks ==> Pending(c0.free) == []
        invariant buffer.None? ==> Pending(tx.free) == []
        invariant buffer.None? && 2 <= looks ==> !GivesUp(looks - 1, interval, timeout)
        decreases limit - looks, buffer.None?
      {
        ghost var c1 := tx;
        Sleep(interval);
        ProducerSameTwice(c0, c1, tx);
        ghost var c2 := tx;
        buffer := Look();
        Attempted(c0, c2, tx, buffer);
        NextPolls(polls0, looks, interval, buffer.Some?);
        TickNext(looks, interval, timeout);
        tick := (tick + interval) % U32;
        looks := looks + 1;
        if tick >= timeout && buffer.None? {
          return;
        }
      }
    }

    /** `rpmsg_lite_send` and `rpmsg_lite_format_message`. Which arguments are refused, and how, in the
        order of the checks; past them it fails only when no buffer came free within the time-out. */
    method Send(ept: Option<u32>, dst: u32, data: Option<seq<u8>>, size: u32, timeout: u32)
      returns (status: int, ghost looks: nat)
      requires Settled(rx, tx) && (data.Some? ==> |data.value| == size)
      requires Ends(interval, timeout)
      modifies this`tx, this`tvqKicks, this`polls
      ensures Settled(rx, tx)
      ensures status == RL_ERR_PARAM <==> ept.None? || (size <= old(tx.cfg.payloadSize) && data.None?)
      ensures status == RL_ERR_BUFF_SIZE <==> ept.Some? && size > old(tx.cfg.payloadSize)
      ensures status == RL_NOT_READY <==>
                ept.Some? && size <= old(tx.cfg.payloadSize) && data.Some? && linkState != 1
      ensures var refused := Refusal(ept, size, old(tx.cfg.payloadSize), data.Some?, linkState);
              if refused != RL_SUCCESS then
                status == refused && tx == old(tx) && tvqKicks == old(tvqKicks) && polls == old(polls)
              else
                && (status == RL_SUCCESS || status == RL_ERR_NO_MEM)
                && 1 <= looks && polls == old(polls) + Polls(looks, interval, status == RL_SUCCESS)
                && (1 < looks ==> timeout != 0 && Pending(old(tx).free) == [])
      ensures linkState != 1 ==> status != RL_SUCCESS && tx == old(tx) && tvqKicks == old(tvqKicks)
      ensures status == RL_ERR_NO_MEM ==>
                && ProducerSame(old(tx), tx) && tvqKicks == old(tvqKicks)
                && tx.sent == old(tx.sent) && tx.pApp == old(tx.pApp)
                && LastLook(looks, interval, timeout)
      ensures status == RL_ERR_NO_MEM ==> Pending(old(tx).free) == [] && Pending(tx.free) == []
      ensures status == RL_SUCCESS ==>
                && ept.Some? && data.Some?
                && tx.sent == old(tx.sent) + [Msg(ept.value, dst, Cut(data.value))]
                && (size < U16 ==> tx.sent == old(tx.sent) + [Msg(ept.value, dst, data.value)])
                && tx.pApp == old(tx.pApp) && BuffersSame(old(tx), tx, tx.pApp)
                && tvqKicks == old(tvqKicks) + 1
    {
      hide ChannelInv, ProducerSame, GotBuffer, Delivered, GivesUp, BuffersSame, LastLook, Polls, Pending, Cut;
      looks := 0;
      if ept.None? { return RL_ERR_PARAM, looks; }
      if size > tx.cfg.payloadSize { return RL_ERR_BUFF_SIZE, looks; }
      if data.None? { return RL_ERR_PARAM, looks; }
      if linkState != 1 { return RL_NOT_READY, looks; }
      ghost var c0 := tx;
      var buffer;
      buffer, looks := AllocTx(timeout);
      if buffer.None? {
        StillSettled(c0, tx);
        return RL_ERR_NO_MEM, looks;
      }
      ghost var c1 := tx;
      GotFacts(c0, tx, buffer.value);
      var c := FormatMessage(tx, buffer.value, ept.value, dst, data.value, 0);
      SendDone(c0, c1, c, buffer.value, Msg(ept.value, dst, Cut(data.value)));
      CutWhole(data.value);
      tx := c;
      tvqKicks := tvqKicks + 1;
      status := RL_SUCCESS;
    }

    /** `rpmsg_lite_alloc_tx_buffer` */
    method AllocTxBuffer(timeout: u32) returns (buffer: Option<nat>, size: int, ghost looks: nat)
      requires Settled(rx, tx)
      requires Ends(interval, timeout)
      modifies this`tx, this`polls
      ensures Settled(rx, tx)
      ensures linkState != 1 ==> buffer.None? && tx == old(tx) && polls == old(polls)
      ensures linkState == 1 ==>
                && 1 <= looks && polls == old(polls) + Polls(looks, interval, buffer.Some?)
                && (1 < looks ==> timeout != 0 && Pending(old(tx).free) == [])
      ensures buffer.None? ==>
                size == 0 && ProducerSame(old(tx), tx) && tx.sent == old(tx.sent) && tx.pApp == old(tx.pApp)
      ensures buffer.None? && linkState == 1 ==>
                LastLook(looks, interval, timeout) && Pending(old(tx).free) == [] && Pending(tx.free) == []
      ensures buffer.Some? ==>
                && size == tx.cfg.bufferSize - HEADER_SIZE && tx.cfg.payloadSize <= size
                && tx.pApp == old(tx.pApp) + multiset{buffer.value} && BufferOf(tx, buffer.value).idx == buffer.value
                && tx.sent == old(tx.sent) && BuffersSame(old(tx), tx, old(tx.pApp))
    {
      hide ChannelInv, ProducerSame, GotBuffer, GivesUp, BuffersSame, DoHandOut, BufferOf, LastLook, Polls, Pending;
      looks := 0;
      ghost var c0 := tx;
      if linkState != 1 {
        ProducerSameSelf(tx);
        return None, 0, looks;
      }
      var taken;
      taken, looks := AllocTx(timeout);
      if taken.None? {
        StillSettled(c0, tx);
        return None, 0, looks;
      }
      GotFacts(c0, tx, taken.value);
      PLength(tx, taken.value);
      HandedOut(c0, tx, taken.value);
      size := ChannelSteps.Lookup(tx.pLen, taken.value);
      tx := DoHandOut(tx, taken.value);
      size := if size >= HEADER_SIZE then size - HEADER_SIZE else 0;
      buffer := taken;
    }

    /** `rpmsg_lite_send_nocopy` on a buffer that the application got from `AllocTxBuffer` */
    method SendNocopy(ept: Option<u32>, dst: u32, data: Option<nat>, size: u32) returns (status: int)
      requires Settled(rx, tx) && (data.Some? ==> data.value in tx.pApp)
      modifies this`tx, this`tvqKicks
      ensures Settled(rx, tx)
      ensures status == RL_ERR_PARAM <==> ept.None? || data.None?
      ensures status == RL_ERR_BUFF_SIZE <==> ept.Some? && data.Some? && size > old(tx.cfg.payloadSize)
      ensures status == RL_NOT_READY <==>
                ept.Some? && data.Some? && size <= old(tx.cfg.payloadSize) && linkState != 1
      ensures status == Refusal(if data.None? then None else ept, size, old(tx.cfg.payloadSize), true, linkState)
      ensures linkState != 1 ==> status != RL_SUCCESS
      ensures status != RL_SUCCESS ==> tx == old(tx) && tvqKicks == old(tvqKicks)
      ensures status == RL_SUCCESS ==>
                && ept.Some? && data.Some?
                && tx.sent == old(tx.sent) + [Msg(ept.value, dst, Cut(Filled(old(tx), data.value, size)))]
                && |Filled(old(tx), data.value, size)| == size
                && (size < U16 ==>
                      tx.sent == old(tx.sent) + [Msg(ept.value, dst, Filled(old(tx), data.value, size))])
                && tx.pApp == old(tx.pApp) - multiset{data.value} && BuffersSame(old(tx), tx, tx.pApp)
                && tvqKicks == old(tvqKicks) + 1
    {
      hide ChannelInv, Delivered, BuffersSame, Cut, Filled, BufferOf;
      if ept.None? || data.None? { return RL_ERR_PARAM; }
      if size > tx.cfg.payloadSize { return RL_ERR_BUFF_SIZE; }
      if linkState != 1 { return RL_NOT_READY; }
      ghost var c0 := tx;
      var c := SendFilled(tx, data.value, ept.value, dst, size);
      FilledDone(c0, c, data.value, Msg(ept.value, dst, Cut(Filled(c0, data.value, size))));
      FilledWhole(c0, data.value, size);
      CutWhole(Filled(c0, data.value, size));
      tx := c;
      tvqKicks := tvqKicks + 1;
      status := RL_SUCCESS;
    }

    // ---- releasing and the blocking queue

    /** `rpmsg_lite_release_rx_buffer` on a buffer that the application holds */
    method ReleaseBuffer(d: nat) returns (status: int)
      requires Settled(rx, tx) && d in rx.qApp
      modifies this`rx, this`rvqKicks
      ensures status == RL_SUCCESS && Settled(rx, tx)
      ensures Returned(old(rx), rx, d) && rx.qApp == old(rx.qApp) - multiset{d}
      ensures |rx.free.log| == |old(rx.free.log)| + 1 && rx.free.log[..|old(rx.free.log)|] == old(rx.free.log)
      ensures rx.free.log[|old(rx.free.log)|].id == d
      ensures Spare(old(rx), queue.items, out, d) ==> QueueOk(rx, queue.items, out)
      ensures rvqKicks == old(rvqKicks) + if notifyFreed then 1 else 0
    {
      hide ChannelInv, Returned, QueueOk, Spare;
      var c := ReleaseRxBuffer(rx, d, true);
      ReturnedIdle(rx, c, d);
      ReturnedOnce(rx, c, d);
      if Spare(rx, queue.items, out, d) { ReleaseSpare(rx, c, queue.items, out, d); }
      rx := c;
      if notifyFreed {
        rvqKicks := rvqKicks + 1;
      }
      status := RL_SUCCESS;
    }

    /** `rpmsg_queue_recv`: a message that does not fit is lost, but its buffer is returned all the same */
    method QueueRecv(maxlen: u32) returns (status: int, src: u32, len: nat, data: seq<u8>)
      requires Settled(rx, tx) && QueueOk(rx, queue.items, out)
      modifies this`rx, this`rvqKicks, queue`items
      ensures Settled(rx, tx) && QueueOk(rx, queue.items, out)
      ensures old(queue.items) == [] ==> status == RL_ERR_NO_BUFF && rx == old(rx) && queue.items == []
      ensures old(queue.items) != [] ==>
                var j := old(queue.items)[0];
                && status == (if maxlen >= |j.m.bytes| then RL_SUCCESS else RL_ERR_BUFF_SIZE)
                && src == j.m.src && len == |j.m.bytes| && (status == RL_SUCCESS ==> data == j.m.bytes)
                && queue.items == old(queue.items)[1..]
                && Returned(old(rx), rx, j.d) && rx.qApp == old(rx.qApp) - multiset{j.d}
      ensures rvqKicks == old(rvqKicks) + if old(queue.items) != [] && notifyFreed then 1 else 0
    {
      hide ChannelInv, Returned, QueueOk, View, BufferOf;
      ghost var items, c0 := queue.items, rx;
      var j := queue.Get();
      if j.None? {
        return RL_ERR_NO_BUFF, 0, 0, [];
      }
      FirstQueued(rx, items, out);
      src, len, data := j.value.m.src, |j.value.m.bytes|, [];
      status := RL_SUCCESS;
      if maxlen >= len {
        data := View(BufferOf(rx, j.value.d)).bytes;
      } else {
        status := RL_ERR_BUFF_SIZE;
      }
      var released := ReleaseBuffer(j.value.d);
      ReleaseQueued(c0, rx, items, out);
      assert released == RL_SUCCESS;
    }

    /** `rpmsg_queue_recv_nocopy`: the buffer stays with the application */
    method QueueRecvNocopy() returns (status: int, j: Option<Job>)
      requires QueueOk(rx, queue.items, out)
      modifies queue`items, this`out
      ensures QueueOk(rx, queue.items, out)
      ensures old(queue.items) == [] ==> status == RL_ERR_NO_BUFF && j.None? && out == old(out)
      ensures old(queue.items) != [] ==>
                && status == RL_SUCCESS && j == Some(old(queue.items)[0]) && queue.items == old(queue.items)[1..]
                && out == old(out) + multiset{j.value.d} && View(BufferOf(rx, j.value.d)) == j.value.m
    {
      hide QueueOk, View, BufferOf;
      ghost var items := queue.items;
      j := queue.Get();
      if j.None? {
        return RL_ERR_NO_BUFF, None;
      }
      HandOutQueued(rx, items, out);
      out := out + multiset{j.value.d};
      status := RL_SUCCESS;
    }

    /** `rpmsg_queue_nocopy_free` */
    method NocopyFree(d: nat) returns (status: int)
      requires Settled(rx, tx) && QueueOk(rx, queue.items, out) && d in out
      modifies this`rx, this`rvqKicks, this`out
      ensures status == RL_SUCCESS && Settled(rx, tx) && QueueOk(rx, queue.items, out)
      ensures out == old(out) - multiset{d}
      ensures Returned(old(rx), rx, d) && rx.qApp == old(rx.qApp) - multiset{d}
      ensures rvqKicks == old(rvqKicks) + if notifyFreed then 1 else 0
    {
      hide ChannelInv, Returned, QueueOk;
      ghost var c0 := rx;
      OutIsHeld(rx, queue.items, out, d);
      status := ReleaseBuffer(d);
      FreeOut(c0, rx, queue.items, out, d);
      out := out - multiset{d};
    }
  }

  lemma StillSettled(c0: Channel, c: Channel)
    requires ProducerSame(c0, c)
    ensures c.data.ring.writer == c0.data.ring.writer && c.pLocal == c0.pLocal && c.cfg == c0.cfg
    ensures c.free.ring.reader == c0.free.ring.reader && c.sent == c0.sent && c.pApp == c0.pApp
  {
    hide BuffersSame;
  }

  lemma GotFacts(c0: Channel, c: Channel, d: nat)
    requires GotBuffer(c0, c, d)
    ensures ChannelInv(c) && d in c.pLocal && c.data.ring.writer == c0.data.ring.writer && c.cfg == c0.cfg
    ensures c.free.ring.reader.RIdle? && c.pLocal == c0.pLocal + multiset{d} && c.pApp == c0.pApp
  {
    hide ChannelInv, BuffersSame;
  }

  lemma SendDone(c0: Channel, c1: Channel, c: Channel, d: nat, m: Msg)
    requires GotBuffer(c0, c1, d) && c0.pLocal == multiset{} && Delivered(c1, c, d, m)
    requires c.pLocal == c1.pLocal - multiset{d} && c.pApp == c1.pApp
    ensures ChannelInv(c) && c.data.ring.writer.WIdle? && c.free.ring.reader.RIdle? && c.pLocal == multiset{}
    ensures c.cfg == c0.cfg && c.sent == c0.sent + [m] && BuffersSame(c0, c, c.pApp)
  {
    hide ChannelInv, BufferOf;
    OnePlace(c1, d);
    forall e | e in c.pApp ensures BufferOf(c, e) == BufferOf(c0, e) {
      assert e in c0.pLocal + c0.pApp;
    }
  }

  lemma HandedOut(c0: Channel, c: Channel, d: nat)
    requires GotBuffer(c0, c, d) && c0.pLocal == multiset{} && c0.data.ring.writer.WIdle?
    ensures var c' := DoHandOut(c, d);
            && ChannelInv(c') && c'.pLocal == multiset{} && c'.pApp == c0.pApp + multiset{d}
            && c'.free.ring.reader.RIdle? && c'.data.ring.writer.WIdle?
            && c'.cfg == c0.cfg && c'.sent == c0.sent && ConfigOk(c0.cfg)
            && BufferOf(c', d).idx == d && BuffersSame(c0, c', c0.pApp)
  {
    hide ChannelInv, BufferOf, BuffersSame, ConfigOk;
    HandOutKeeps(c, d);
    OnePlace(c, d);
    ConfigPart(c);
    BufferFrame(c, d, BufferOf(c, d).(idx := d % U16));
    AppNames(DoHandOut(c, d), d);
    HandOutSpares(c0, c, d);
  }

  lemma ConfigPart(c: Channel)
    requires ChannelInv(c)
    ensures ConfigOk(c.cfg)
  {
  }

  lemma HandOutSpares(c0: Channel, c: Channel, d: nat)
    requires GotBuffer(c0, c, d)
    ensures BuffersSame(c0, DoHandOut(c, d), c0.pApp)
  {
    hide ChannelInv, BufferOf;
    OnePlace(c, d);
    DescPart(c);
    forall e | e in c0.pApp ensures BufferOf(DoHandOut(c, d), e) == BufferOf(c0, e) {
      assert e in c0.pLocal + c0.pApp;
      HandOutOnly(c, d, e);
    }
  }

  lemma FilledDone(c0: Channel, c: Channel, d: nat, m: Msg)
    requires ChannelInv(c0) && d in c0.pApp && Delivered(c0, c, d, m)
    requires c.pLocal == c0.pLocal && c.pApp == c0.pApp - multiset{d}
    ensures ChannelInv(c) && c.data.ring.writer.WIdle? && c.free.ring.reader == c0.free.ring.reader
    ensures c.cfg == c0.cfg && c.sent == c0.sent + [m] && BuffersSame(c0, c, c.pApp)
  {
    hide ChannelInv, BufferOf;
    AppOnce(c0, d);
  }

  lemma AppOnce(c: Channel, d: nat)
    requires ChannelInv(c)
    ensures c.pApp[d] <= 1 && c.qApp[d] <= 1
  {
    assert Total(c)[d] <= 1;
  }

  lemma ReturnedIdle(c: Channel, c': Channel, d: nat)
    requires Returned(c, c', d)
    ensures ChannelInv(c') && c'.free.ring.writer.WIdle? && c'.data == c.data && c'.cfg == c.cfg
  {
    hide ChannelInv, BufferOf;
  }

  lemma ReturnedOnce(c: Channel, c': Channel, d: nat)
    requires Returned(c, c', d)
    ensures |c'.free.log| == |c.free.log| + 1 && c'.free.log[..|c.free.log|] == c.free.log
    ensures c'.free.log[|c.free.log|].id == d
  {
    hide ChannelInv, BufferOf, ReturnFrame;
  }

  lemma FirstQueued(c: Channel, items: seq<Job>, out: multiset<nat>)
    requires QueueOk(c, items, out) && items != []
    ensures items[0].d in c.qApp && View(BufferOf(c, items[0].d)) == items[0].m
  {
    QueuedIsHeld(c, items, out, 0);
  }

  lemma OutIsHeld(c: Channel, items: seq<Job>, out: multiset<nat>, d: nat)
    requires QueueOk(c, items, out) && d in out
    ensures d in c.qApp
  {
    assert d in multiset(DsOf(items)) + out;
  }

  lemma QueueSplit(items: seq<Job>)
    requires items != []
    ensures multiset(DsOf(items)) == multiset{items[0].d} + multiset(DsOf(items[1..]))
  {
    assert DsOf(items) == [items[0].d] + DsOf(items[1..]);
  }

  /** Releasing the first message of the queue keeps the others intact. */
  lemma ReleaseQueued(c: Channel, c': Channel, items: seq<Job>, out: multiset<nat>)
    requires ChannelInv(c) && items != [] && QueueOk(c, items, out)
    requires Returned(c, c', items[0].d) && c'.qApp == c.qApp - multiset{items[0].d}
    ensures QueueOk(c', items[1..], out)
  {
    hide ChannelInv, View, BufferOf;
    QueueSplit(items);
    QueueWithout(c, c', items[0].d, items[1..], out);
  }

  lemma FreeOut(c: Channel, c': Channel, items: seq<Job>, out: multiset<nat>, d: nat)
    requires ChannelInv(c) && d in out && QueueOk(c, items, out)
    requires Returned(c, c', d) && c'.qApp == c.qApp - multiset{d}
    ensures QueueOk(c', items, out - multiset{d})
  {
    hide ChannelInv, View, BufferOf;
    QueueWithout(c, c', d, items, out - multiset{d});
  }

  lemma QueueWithout(c: Channel, c': Channel, d: nat, items: seq<Job>, out: multiset<nat>)
    requires ChannelInv(c) && Returned(c, c', d) && c'.qApp == c.qApp - multiset{d}
    requires multiset(DsOf(items)) + out + multiset{d} <= c.qApp
    requires forall i | 0 <= i < |items| :: View(BufferOf(c, items[i].d)) == items[i].m
    ensures QueueOk(c', items, out)
  {
    hide ChannelInv, View, BufferOf;
    AppOnce(c, d);
    forall i | 0 <= i < |items| ensures View(BufferOf(c', items[i].d)) == items[i].m {
      assert DsOf(items)[i] == items[i].d;
      assert items[i].d in multiset(DsOf(items));
      assert items[i].d != d;
    }
  }

  /** A buffer that the application holds besides those of the queue. */
  ghost predicate Spare(c: Channel, items: seq<Job>, out: multiset<nat>, d: nat) {
    QueueOk(c, items, out) && multiset(DsOf(items)) + out + multiset{d} <= c.qApp
  }

  lemma ReleaseSpare(c: Channel, c': Channel, items: seq<Job>, out: multiset<nat>, d: nat)
    requires ChannelInv(c) && Spare(c, items, out, d)
    requires Returned(c, c', d) && c'.qApp == c.qApp - multiset{d}
    ensures QueueOk(c', items, out)
  {
    hide ChannelInv, View, BufferOf;
    QueueWithout(c, c', d, items, out);
  }

  lemma HandOutQueued(c: Channel, items: seq<Job>, out: multiset<nat>)
    requires QueueOk(c, items, out) && items != []
    ensures QueueOk(c, items[1..], out + multiset{items[0].d}) && View(BufferOf(c, items[0].d)) == items[0].m
  {
    hide View, BufferOf;
    QueueSplit(items);
  }

  lemma Attempted(c0: Channel, c: Channel, c': Channel, buffer: Option<nat>)
    requires ChannelInv(c) && ProducerSame(c0, c) && c.free.ring.reader.RIdle?
    requires buffer.None? ==> c' == c
    requires buffer.Some? ==> Allocated(c, c', buffer.value)
    ensures buffer.None? ==> ChannelInv(c') && ProducerSame(c0, c') && c'.free.ring.reader.RIdle?
    ensures buffer.Some? ==> GotBuffer(c0, c', buffer.value)
  {
    hide ChannelInv, ProducerSame, GotBuffer, Allocated;
    if buffer.Some? { AllocatedAfter(c0, c, c', buffer.value); }
  }

  lemma TickNext(k: nat, interval: u32, timeout: u32)
    requires 1 <= k
    ensures (Tick(k - 1, interval) + interval) % U32 == Tick(k, interval)
    ensures Tick(k, interval) >= timeout <==> GivesUp(k, interval, timeout)
  {
    assert k * interval == (k - 1) * interval + interval;
  }

  lemma StartTurns(a: Answer, es: seq<Endpoint>, c: Channel)
    requires ChannelInv(c) && c.free.ring.writer.WIdle? && c.data.ring.reader.RIdle? && c.qLocal == multiset{}
    ensures Turns(a, es, c, c, Jobs(c), 0) && Between(c, Jobs(c), 0)
    ensures Jobs(c)[..0] == [] && CallsFor(es, []) == [] && QueuedBy(es, []) == [] && ReturnedBy(a, es, []) == []
  {
    hide ChannelInv, Jobs;
    TurnsStart(a, es, c);
  }

  lemma TurnsIdle(a: Answer, es: seq<Endpoint>, c0: Channel, c: Channel, js: seq<Job>, k: nat)
    requires Turns(a, es, c0, c, js, k)
    ensures ChannelInv(c) && c.data.ring.reader.RIdle? && c.free.ring.writer.WIdle? && c.cfg == c0.cfg
  {
    hide ChannelInv;
  }

  lemma AfterRx(a: Answer, es: seq<Endpoint>, c0: Channel, c: Channel, js: seq<Job>, k: nat,
                c': Channel, msg: Option<nat>, items: seq<Job>, out: multiset<nat>)
    requires Turns(a, es, c0, c, js, k) && Between(c, js, k) && QueueOk(c, items, out)
    requires msg.None? <==> Pending(c.data) == []
    requires msg.None? ==> c' == c
    requires msg.Some? ==> Received(c, c', msg.value)
    ensures Turns(a, es, c0, c', js, k) && Current(c', js, k, msg) && QueueOk(c', items, out) && c'.cfg == c.cfg
  {
    hide Turns, Between, Current, QueueOk, Received, Pending;
    NextJob(a, es, c0, c, js, k, c', msg);
    TurnsIdle(a, es, c0, c, js, k);
    TurnsIdle(a, es, c0, c', js, k);
    if msg.Some? { ReceiveKeepsQueue(c, c', msg.value, items, out); }
  }

  lemma CurrentBound(c: Channel, js: seq<Job>, k: nat, msg: Option<nat>)
    requires Current(c, js, k, msg)
    ensures msg.Some? ==> k < |js|
  {
    hide Jobs, View, BufferOf;
  }

  lemma EndTurns(a: Answer, es: seq<Endpoint>, c0: Channel, c: Channel, js: seq<Job>, k: nat)
    requires Turns(a, es, c0, c, js, k) && Current(c, js, k, None)
    ensures k == |js| && Jobs(c) == [] && c.qLocal == multiset{} && c.sent == c0.sent && c.delivered == c.sent
    ensures ChannelInv(c) && c.data.ring.reader.RIdle? && c.free.ring.writer.WIdle? && c.cfg == c0.cfg
    ensures c.free.ring.kind == c0.free.ring.kind
    ensures c.qApp == c0.qApp + multiset(HeldBy(a, es, js))
    ensures c.free.log == c0.free.log + SlotsOf(c0.free.ring.kind, ReturnedBy(a, es, js), c0.cfg.bufferSize)
  {
    hide ChannelInv, Jobs, HeldBy, ReturnedBy, SlotsOf;
    assert js[..k] == js && js[k..] == [];
    NothingLeft(c);
  }

  lemma NothingLeft(c: Channel)
    requires ChannelInv(c) && Jobs(c) == []
    ensures c.delivered == c.sent
  {
    hide ChannelInv, Jobs, Pending;
    JobsLength(c);
    NothingPending(c);
  }

  lemma TurnFacts(a: Answer, es: seq<Endpoint>, c0: Channel, c: Channel, js: seq<Job>, k: nat, d: nat)
    requires Turns(a, es, c0, c, js, k) && Current(c, js, k, Some(d))
    ensures ChannelInv(c) && c.free.ring.writer.WIdle? && d in c.qLocal && d !in c.qApp && |c.qLocal| == 1
    ensures View(BufferOf(c, d)) == js[k].m && js[k] == Job(d, js[k].m)
  {
    hide ChannelInv, View, BufferOf, Jobs;
    assert d in c.qLocal;
    OnePlace(c, d);
  }
}
