/** What one run of the receive callback does with each of its messages, told by the endpoint table alone:
    which of them were given to a callback, kept, returned, and put into the receive queue.
 */
module Outcomes {
  import opened Words
  import opened Channels
  import opened Virtqueues
  import opened Endpoints

  /** The callback number that stands for `rpmsg_queue_rx_cb`. */
  const QUEUE_CB := 0

  /** A message and the descriptor of the buffer it lies in. */
  datatype Job = Job(d: nat, m: Msg)

  /** The application's callbacks: whether the endpoint holds the message. */
  type Answer = (Endpoint, Msg) -> bool

  /** The endpoint that a destination address selects. */
  function Handler(es: seq<Endpoint>, addr: u32): Option<Endpoint> {
    if es == [] then None else if es[0].addr == addr then Some(es[0]) else Handler(es[1..], addr)
  }

  predicate Holds(a: Answer, es: seq<Endpoint>, m: Msg) {
    match Handler(es, m.dst)
    case None => false
    case Some(e) => e.rxCb == QUEUE_CB || a(e, m)
  }

  /** The callbacks made for some messages, in order. */
  function CallsFor(es: seq<Endpoint>, js: seq<Job>): seq<(Endpoint, Msg)> {
    if js == [] then [] else CallsFor(es, js[..|js| - 1]) + CallFor(es, js[|js| - 1])
  }

  function CallFor(es: seq<Endpoint>, j: Job): seq<(Endpoint, Msg)> {
    match Handler(es, j.m.dst)
    case None => []
    case Some(e) => [(e, j.m)]
  }

  /** The descriptors held and those returned, in order. */
  function HeldBy(a: Answer, es: seq<Endpoint>, js: seq<Job>): seq<nat> {
    if js == [] then [] else
    var j := js[|js| - 1];
    HeldBy(a, es, js[..|js| - 1]) + if Holds(a, es, j.m) then [j.d] else []
  }

  function ReturnedBy(a: Answer, es: seq<Endpoint>, js: seq<Job>): seq<nat> {
    if js == [] then [] else
    var j := js[|js| - 1];
    ReturnedBy(a, es, js[..|js| - 1]) + if Holds(a, es, j.m) then [] else [j.d]
  }

  /** The messages put into the receive queue, in order. */
  function QueuedBy(es: seq<Endpoint>, js: seq<Job>): seq<Job> {
    if js == [] then [] else QueuedBy(es, js[..|js| - 1]) + Queued(es, js[|js| - 1])
  }

  function Queued(es: seq<Endpoint>, j: Job): seq<Job> {
    match Handler(es, j.m.dst)
    case None => []
    case Some(e) => if e.rxCb == QUEUE_CB then [j] else []
  }

  // ---- looking up the endpoint of a message

  lemma {:induction false} HandlerFound(es: seq<Endpoint>, addr: u32, k: nat)
    requires Distinct(es) && k < |es| && es[k].addr == addr
    ensures Handler(es, addr) == Some(es[k])
  {
    if k > 0 {
      assert es[0].addr != es[k].addr;
      HandlerFound(es[1..], addr, k - 1);
    }
  }

  lemma {:induction false} HandlerMissing(es: seq<Endpoint>, addr: u32)
    requires !Uses(es, addr)
    ensures Handler(es, addr) == None
  {
    if es != [] {
      UsesCons(es, addr);
      HandlerMissing(es[1..], addr);
    }
  }

  /** A message goes to the one endpoint with its address, and to none if there is none; whether it is
      held is up to that endpoint. */
  lemma HandlerIsUser(a: Answer, es: seq<Endpoint>, j: Job)
    requires Distinct(es)
    ensures !Uses(es, j.m.dst) ==> CallFor(es, j) == [] && Queued(es, j) == [] && !Holds(a, es, j.m)
    ensures forall e | e in es && e.addr == j.m.dst ::
              && CallFor(es, j) == [(e, j.m)] && (Queued(es, j) == if e.rxCb == QUEUE_CB then [j] else [])
              && (Holds(a, es, j.m) <==> e.rxCb == QUEUE_CB || a(e, j.m))
  {
    if !Uses(es, j.m.dst) { HandlerMissing(es, j.m.dst); }
    hide Distinct, Uses;
    forall e | e in es && e.addr == j.m.dst ensures Handler(es, j.m.dst) == Some(e) {
      var k :| 0 <= k < |es| && es[k] == e;
      HandlerFound(es, j.m.dst, k);
    }
  }

  // ---- the messages of a run by their places

  /** Places in a sequence of length n, in order. */
  predicate Places(at: seq<nat>, n: nat) {
    && (forall x | 0 <= x < |at| :: at[x] < n)
    && (forall x, y | 0 <= x < y < |at| :: at[x] < at[y])
  }

  function JobsAt(js: seq<Job>, at: seq<nat>): (r: seq<Job>)
    requires Places(at, |js|)
    ensures |r| == |at| && forall x | 0 <= x < |at| :: r[x] == js[at[x]]
  {
    seq(|at|, x requires 0 <= x < |at| && Places(at, |js|) => js[at[x]])
  }

  function DsOf(js: seq<Job>): (ds: seq<nat>)
    ensures |ds| == |js| && forall i | 0 <= i < |js| :: ds[i] == js[i].d
  {
    seq(|js|, i requires 0 <= i < |js| => js[i].d)
  }

  /** The places of the messages that were given to a callback, kept by one, returned, and queued. */
  datatype Outcome = Outcome(called: seq<nat>, kept: seq<nat>, back: seq<nat>, put: seq<nat>)

  function Where(p: Job -> bool, js: seq<Job>): (at: seq<nat>)
    ensures Places(at, |js|) && forall i: nat | i < |js| :: i in at <==> p(js[i])
  {
    if js == [] then [] else
    var n := |js| - 1;
    assert forall i: nat | i < n :: js[..n][i] == js[i];
    Where(p, js[..n]) + if p(js[n]) then [n] else []
  }

  lemma AtPrefix(js: seq<Job>, n: nat, at: seq<nat>)
    requires n <= |js| && Places(at, n)
    ensures Places(at, |js|) && JobsAt(js, at) == JobsAt(js[..n], at)
  {
  }

  lemma AtAdd(js: seq<Job>, at: seq<nat>, n: nat)
    requires Places(at, |js|) && Places(at + [n], |js|)
    ensures n < |js| && JobsAt(js, at + [n]) == JobsAt(js, at) + [js[n]]
  {
    assert (at + [n])[|at|] == n;
  }

  lemma WhereNext(p: Job -> bool, js: seq<Job>)
    requires js != []
    ensures var n := |js| - 1; Where(p, js) == Where(p, js[..n]) + if p(js[n]) then [n] else []
    ensures Where(p, []) == []
  {
  }

  lemma AtNext(p: Job -> bool, js: seq<Job>)
    ensures js == [] ==> JobsAt(js, Where(p, js)) == []
    ensures js != [] ==>
              var n := |js| - 1;
              JobsAt(js, Where(p, js)) == JobsAt(js[..n], Where(p, js[..n])) + if p(js[n]) then [js[n]] else []
  {
    if js != [] {
      hide Where, JobsAt, Places;
      var n := |js| - 1;
      WhereNext(p, js);
      AtPrefix(js, n, Where(p, js[..n]));
      if p(js[n]) { AtAdd(js, Where(p, js[..n]), n); }
    }
  }

  lemma DsAdd(js: seq<Job>, ks: seq<Job>)
    ensures DsOf(js + ks) == DsOf(js) + DsOf(ks)
  {
  }

  lemma {:induction false} ReturnedAt(a: Answer, es: seq<Endpoint>, js: seq<Job>, p: Job -> bool)
    requires forall j :: p(j) <==> !Holds(a, es, j.m)
    ensures ReturnedBy(a, es, js) == DsOf(JobsAt(js, Where(p, js)))
  {
    hide Holds, Where, JobsAt, Places;
    AtNext(p, js);
    if js != [] {
      var n := |js| - 1;
      ReturnedAt(a, es, js[..n], p);
      DsAdd(JobsAt(js[..n], Where(p, js[..n])), if p(js[n]) then [js[n]] else []);
    }
  }

  lemma {:induction false} HeldAt(a: Answer, es: seq<Endpoint>, js: seq<Job>, p: Job -> bool)
    requires forall j :: p(j) <==> Holds(a, es, j.m)
    ensures HeldBy(a, es, js) == DsOf(JobsAt(js, Where(p, js)))
  {
    hide Holds, Where, JobsAt, Places;
    AtNext(p, js);
    if js != [] {
      var n := |js| - 1;
      HeldAt(a, es, js[..n], p);
      DsAdd(JobsAt(js[..n], Where(p, js[..n])), if p(js[n]) then [js[n]] else []);
    }
  }

  lemma {:induction false} QueuedAt(es: seq<Endpoint>, js: seq<Job>, p: Job -> bool)
    requires forall j :: Queued(es, j) == if p(j) then [j] else []
    ensures QueuedBy(es, js) == JobsAt(js, Where(p, js))
  {
    hide Queued, Where, JobsAt, Places;
    AtNext(p, js);
    if js != [] {
      QueuedAt(es, js[..|js| - 1], p);
    }
  }

  lemma {:induction false} CalledAt(es: seq<Endpoint>, js: seq<Job>, p: Job -> bool)
    requires forall j :: if p(j) then |CallFor(es, j)| == 1 else CallFor(es, j) == []
    ensures var at := Where(p, js);
            && |CallsFor(es, js)| == |at|
            && forall x | 0 <= x < |at| :: [CallsFor(es, js)[x]] == CallFor(es, js[at[x]])
  {
    hide CallFor;
    if js != [] {
      CalledAt(es, js[..|js| - 1], p);
      WhereNext(p, js);
    }
  }

  lemma UsedBy(es: seq<Endpoint>, addr: u32) returns (e: Endpoint)
    requires Uses(es, addr)
    ensures e in es && e.addr == addr
  {
    var k :| 0 <= k < |es| && es[k].addr == addr;
    e := es[k];
  }

  lemma UserUses(es: seq<Endpoint>, e: Endpoint)
    requires e in es
    ensures Uses(es, e.addr)
  {
    var k :| 0 <= k < |es| && es[k] == e;
  }

  /** What is done with one message, by its destination alone. */
  lemma JobOutcome(a: Answer, es: seq<Endpoint>, j: Job)
    requires Distinct(es)
    ensures if Uses(es, j.m.dst) then |CallFor(es, j)| == 1 else CallFor(es, j) == []
    ensures Uses(es, j.m.dst) ==>
              CallFor(es, j)[0].0 in es && CallFor(es, j)[0].0.addr == j.m.dst && CallFor(es, j)[0].1 == j.m
    ensures Holds(a, es, j.m) <==> exists e | e in es :: e.addr == j.m.dst && (e.rxCb == QUEUE_CB || a(e, j.m))
    ensures Queued(es, j) == if exists e | e in es :: e.addr == j.m.dst && e.rxCb == QUEUE_CB then [j] else []
  {
    HandlerIsUser(a, es, j);
    hide Distinct, Uses, CallFor, Holds, Queued;
    if Uses(es, j.m.dst) {
      var u := UsedBy(es, j.m.dst);
    } else {
      forall e | e in es ensures e.addr != j.m.dst { UserUses(es, e); }
    }
  }

  lemma OutcomeOf(a: Answer, es: seq<Endpoint>, js: seq<Job>) returns (o: Outcome)
    requires Distinct(es)
    ensures Places(o.called, |js|) && Places(o.kept, |js|) && Places(o.back, |js|) && Places(o.put, |js|)
    ensures forall i: nat | i < |js| ::
              && (i in o.called <==> Uses(es, js[i].m.dst))
              && (i in o.kept <==>
                    exists e | e in es :: e.addr == js[i].m.dst && (e.rxCb == QUEUE_CB || a(e, js[i].m)))
              && (i in o.back <==> i !in o.kept)
              && (i in o.put <==> exists e | e in es :: e.addr == js[i].m.dst && e.rxCb == QUEUE_CB)
    ensures HeldBy(a, es, js) == DsOf(JobsAt(js, o.kept)) && ReturnedBy(a, es, js) == DsOf(JobsAt(js, o.back))
    ensures QueuedBy(es, js) == JobsAt(js, o.put) && |CallsFor(es, js)| == |o.called|
    ensures forall x | 0 <= x < |o.called| ::
              var call := CallsFor(es, js)[x];
              call.0 in es && call.0.addr == js[o.called[x]].m.dst && call.1 == js[o.called[x]].m
  {
    hide Distinct, Uses, CallFor, Holds, Queued, HeldBy, ReturnedBy, QueuedBy, CallsFor, Where, JobsAt;
    forall j: Job {
      JobOutcome(a, es, j);
    }
    var called := (j: Job) => Uses(es, j.m.dst);
    var kept := (j: Job) => Holds(a, es, j.m);
    var back := (j: Job) => !Holds(a, es, j.m);
    var put := (j: Job) => exists e | e in es :: e.addr == j.m.dst && e.rxCb == QUEUE_CB;
    CalledAt(es, js, called);
    HeldAt(a, es, js, kept);
    ReturnedAt(a, es, js, back);
    QueuedAt(es, js, put);
    o := Outcome(Where(called, js), Where(kept, js), Where(back, js), Where(put, js));
  }
}
