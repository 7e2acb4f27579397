/** The endpoint table: an intrusive doubly linked list (`llist.c`) with lookup, creation and
    destruction (`rpmsg_lite.c`), over the sequence of endpoints that it represents.

    The list keeps less than a textbook list does: the `prev` pointer of the first node means
    nothing. Removing the head leaves it pointing to the node that was removed.
 */
module Endpoints {
  import opened Words

  const RL_SUCCESS := 0
  const RL_ERR_PARAM := -5003
  const ADDR_ANY: u32 := 0xFFFF_FFFF

  /** `struct rpmsg_lite_endpoint`; callback and context are opaque. */
  datatype Endpoint = Endpoint(addr: u32, rxCb: nat, rxCbData: nat)

  // ---- the table as a sequence, newest endpoint first

  predicate Uses(es: seq<Endpoint>, addr: u32) {
    exists i | 0 <= i < |es| :: es[i].addr == addr
  }

  ghost predicate Distinct(es: seq<Endpoint>) {
    forall i, j | 0 <= i < j < |es| :: es[i].addr != es[j].addr
  }

  /** The first address from i on that no endpoint uses; ADDR_ANY if there is none. */
  function FreeFrom(es: seq<Endpoint>, i: u32): (r: u32)
    ensures i <= r && (r != ADDR_ANY ==> !Uses(es, r)) && forall a: u32 :: i <= a < r ==> Uses(es, a)
    decreases ADDR_ANY - i
  {
    if i == ADDR_ANY || !Uses(es, i) then i else FreeFrom(es, i + 1)
  }

  /** The address that a new endpoint gets. */
  function Chosen(es: seq<Endpoint>, addr: u32): u32 {
    if addr == ADDR_ANY then FreeFrom(es, 1) else addr
  }

  function Without(es: seq<Endpoint>, addr: u32): seq<Endpoint> {
    if es == [] then []
    else if es[0].addr == addr then es[1..]
    else [es[0]] + Without(es[1..], addr)
  }

  datatype Op = Create(addr: u32, rxCb: nat, rxCbData: nat) | Destroy(addr: u32)

  /** Creation fails on an address in use and when no address is free. */
  predicate CanCreate(es: seq<Endpoint>, addr: u32) {
    if addr == ADDR_ANY then Chosen(es, addr) != ADDR_ANY else !Uses(es, addr)
  }

  function Applied(es: seq<Endpoint>, op: Op): seq<Endpoint> {
    match op
    case Create(addr, rxCb, rxCbData) =>
      if CanCreate(es, addr) then [Endpoint(Chosen(es, addr), rxCb, rxCbData)] + es else es
    case Destroy(addr) => Without(es, addr)
  }

  function Run(es: seq<Endpoint>, ops: seq<Op>): seq<Endpoint>
    decreases |ops|
  {
    if ops == [] then es else Run(Applied(es, ops[0]), ops[1..])
  }

  /** Removing an address in use removes one endpoint and no other address. */
  lemma {:induction false} WithoutUses(es: seq<Endpoint>, addr: u32, a: u32)
    ensures |Without(es, addr)| == if Uses(es, addr) then |es| - 1 else |es|
    ensures a != addr ==> (Uses(Without(es, addr), a) <==> Uses(es, a))
  {
    if es != [] {
      UsesCons(es, addr);
      UsesCons(es, a);
      if es[0].addr != addr {
        WithoutUses(es[1..], addr, a);
        var rest := Without(es[1..], addr);
        UsesCons([es[0]] + rest, a);
        assert ([es[0]] + rest)[1..] == rest;
      }
    }
  }

  lemma UsesCons(es: seq<Endpoint>, a: u32)
    requires es != []
    ensures Uses(es, a) <==> es[0].addr == a || Uses(es[1..], a)
  {
    if Uses(es, a) && es[0].addr != a {
      var i :| 0 <= i < |es| && es[i].addr == a;
      assert es[1..][i - 1].addr == a;
    }
    if Uses(es[1..], a) {
      var i :| 0 <= i < |es[1..]| && es[1..][i].addr == a;
      assert es[i + 1].addr == a;
    }
  }

  /** In a table of distinct addresses, removing the address of the k-th endpoint removes that one. */
  lemma {:induction false} WithoutAt(es: seq<Endpoint>, k: nat)
    requires Distinct(es) && k < |es|
    ensures Without(es, es[k].addr) == es[..k] + es[k + 1..]
  {
    if k > 0 {
      WithoutAt(es[1..], k - 1);
      assert es[0].addr != es[k].addr;
      assert [es[0]] + es[1..][..k - 1] == es[..k];
      assert es[1..][k..] == es[k + 1..];
    }
  }

  lemma {:induction false} WithoutUnused(es: seq<Endpoint>, addr: u32)
    requires !Uses(es, addr)
    ensures Without(es, addr) == es
  {
    if es != [] {
      UsesCons(es, addr);
      WithoutUnused(es[1..], addr);
    }
  }

  lemma WithoutDistinct(es: seq<Endpoint>, addr: u32)
    requires Distinct(es)
    ensures Distinct(Without(es, addr)) && !Uses(Without(es, addr), addr)
  {
    if Uses(es, addr) {
      var k :| 0 <= k < |es| && es[k].addr == addr;
      WithoutAt(es, k);
      CutDistinct(es, k);
    } else {
      WithoutUnused(es, addr);
    }
  }

  lemma CutDistinct(es: seq<Endpoint>, k: nat)
    requires Distinct(es) && k < |es|
    ensures Distinct(es[..k] + es[k + 1..]) && !Uses(es[..k] + es[k + 1..], es[k].addr)
  {
    var cut := es[..k] + es[k + 1..];
    forall i | 0 <= i < |cut| ensures cut[i] == es[if i < k then i else i + 1] { }
  }

  lemma AppliedDistinct(es: seq<Endpoint>, op: Op)
    requires Distinct(es)
    ensures Distinct(Applied(es, op))
  {
    if op.Destroy? { WithoutDistinct(es, op.addr); }
  }

  /** Over any sequence of creations and destructions no two endpoints share an address. */
  lemma {:induction false} RunDistinct(es: seq<Endpoint>, ops: seq<Op>)
    requires Distinct(es)
    ensures Distinct(Run(es, ops))
    decreases |ops|
  {
    hide Distinct, Applied;
    if ops != [] {
      AppliedDistinct(es, ops[0]);
      RunDistinct(Applied(es, ops[0]), ops[1..]);
    }
  }

  /** Destroying what has just been created restores the table. */
  lemma CreateThenDestroy(es: seq<Endpoint>, addr: u32, rxCb: nat, rxCbData: nat)
    requires CanCreate(es, addr)
    ensures Applied(Applied(es, Create(addr, rxCb, rxCbData)), Destroy(Chosen(es, addr))) == es
  {
    var one := [Endpoint(Chosen(es, addr), rxCb, rxCbData)] + es;
    assert one[1..] == es;
  }

  // ---- automatic addresses

  /** Pigeonhole: a table that uses all of 1..m has at least m endpoints. */
  lemma {:induction false} AllUsed(es: seq<Endpoint>, m: u32)
    requires forall a: u32 :: 1 <= a <= m ==> Uses(es, a)
    ensures m <= |es|
    decreases m
  {
    if m > 0 {
      WithoutUses(es, m, m);
      forall a: u32 | 1 <= a <= m - 1 ensures Uses(Without(es, m), a) {
        WithoutUses(es, m, a);
      }
      AllUsed(Without(es, m), m - 1);
    }
  }

  /** An automatic address is the least one not in use, at least 1 and at most one more than the
      number of endpoints; creation cannot fail on fewer than 2^32 - 2 endpoints. */
  lemma ChosenIsLeast(es: seq<Endpoint>)
    ensures var r := Chosen(es, ADDR_ANY);
            && 1 <= r <= |es| + 1
            && (forall a: u32 :: 1 <= a < r ==> Uses(es, a))
            && (|es| < 0xFFFF_FFFE ==> CanCreate(es, ADDR_ANY) && !Uses(es, r))
  {
    AllUsed(es, Chosen(es, ADDR_ANY) - 1);
  }

  lemma ChosenIsFree(es: seq<Endpoint>, addr: u32)
    ensures CanCreate(es, addr) ==> !Uses(es, Chosen(es, addr))
    ensures CanCreate(es, addr) <==> Chosen(es, addr) != ADDR_ANY && !Uses(es, Chosen(es, addr))
  {
  }

  // ---- the list

  /** `struct llist`; the endpoint that data points to is kept with the node. */
  class Node {
    var next: Node?
    var prev: Node?
    const data: Endpoint

    constructor (data: Endpoint)
      ensures this.data == data && next == null && prev == null
    {
      this.data, next, prev := data, null, null;
    }
  }

  function Datas(ns: seq<Node>): (es: seq<Endpoint>)
    ensures |es| == |ns| && forall i | 0 <= i < |ns| :: es[i] == ns[i].data
  {
    seq(|ns|, i requires 0 <= i < |ns| => ns[i].data)
  }

  lemma DatasCons(n: Node, ns: seq<Node>)
    ensures Datas([n] + ns) == [n.data] + Datas(ns)
  {
  }

  function NodeAt(ns: seq<Node>, i: int): Node? {
    if 0 <= i < |ns| then ns[i] else null
  }

  function SkipAt(ns: seq<Node>, k: nat): seq<Node>
    requires k < |ns|
  {
    ns[..k] + ns[k + 1..]
  }

  lemma DatasSkip(ns: seq<Node>, k: nat)
    requires k < |ns|
    ensures Datas(SkipAt(ns, k)) == Datas(ns)[..k] + Datas(ns)[k + 1..]
  {
  }

  lemma SkipIndex(ns: seq<Node>, k: nat, i: int)
    requires k < |ns|
    ensures NodeAt(SkipAt(ns, k), i) == if i < k then NodeAt(ns, i) else NodeAt(ns, i + 1)
  {
  }

  lemma SkipDistinct(ns: seq<Node>, k: nat)
    requires k < |ns| && forall i, j | 0 <= i < j < |ns| :: ns[i] != ns[j]
    ensures var ms := SkipAt(ns, k);
            (forall n | n in ms :: n in ns) && forall i, j | 0 <= i < j < |ms| :: ms[i] != ms[j]
  {
  }

  /** Links that lead around the k-th node are the links of the list without it. */
  lemma NextsWithout(ns: seq<Node>, k: nat)
    requires k < |ns|
    requires forall i | 0 <= i < |ns| && i != k - 1 && i != k :: ns[i].next == NodeAt(ns, i + 1)
    requires k > 0 ==> ns[k - 1].next == NodeAt(ns, k + 1)
    ensures var ms := SkipAt(ns, k); forall i | 0 <= i < |ms| :: ms[i].next == NodeAt(ms, i + 1)
  {
    var ms := SkipAt(ns, k);
    forall i | 0 <= i < |ms| ensures ms[i].next == NodeAt(ms, i + 1) {
      SkipIndex(ns, k, i);
      SkipIndex(ns, k, i + 1);
    }
  }

  lemma PrevsWithout(ns: seq<Node>, k: nat)
    requires k < |ns|
    requires forall i | 1 <= i < |ns| && i != k && i != k + 1 :: ns[i].prev == NodeAt(ns, i - 1)
    requires 0 < k < |ns| - 1 ==> ns[k + 1].prev == NodeAt(ns, k - 1)
    ensures var ms := SkipAt(ns, k); forall i | 1 <= i < |ms| :: ms[i].prev == NodeAt(ms, i - 1)
  {
    var ms := SkipAt(ns, k);
    forall i | 1 <= i < |ms| ensures ms[i].prev == NodeAt(ms, i - 1) {
      SkipIndex(ns, k, i);
      SkipIndex(ns, k, i - 1);
    }
  }

  /** Forward links are right everywhere, backward links everywhere but at the head. */
  ghost predicate Chained(ns: seq<Node>)
    reads ns
  {
    && (forall i, j | 0 <= i < j < |ns| :: ns[i] != ns[j])
    && (forall i | 0 <= i < |ns| :: ns[i].next == NodeAt(ns, i + 1))
    && (forall i | 1 <= i < |ns| :: ns[i].prev == NodeAt(ns, i - 1))
  }

  lemma SkipChained(ns: seq<Node>, k: nat)
    requires k < |ns| && forall i, j | 0 <= i < j < |ns| :: ns[i] != ns[j]
    requires forall i | 0 <= i < |ns| && i != k - 1 && i != k :: ns[i].next == NodeAt(ns, i + 1)
    requires forall i | 1 <= i < |ns| && i != k && i != k + 1 :: ns[i].prev == NodeAt(ns, i - 1)
    requires k > 0 ==> ns[k - 1].next == NodeAt(ns, k + 1)
    requires 0 < k < |ns| - 1 ==> ns[k + 1].prev == NodeAt(ns, k - 1)
    ensures Chained(SkipAt(ns, k)) && NodeAt(SkipAt(ns, k), 0) == NodeAt(ns, if k == 0 then 1 else 0)
  {
    hide SkipAt;
    SkipIndex(ns, k, 0);
    SkipDistinct(ns, k);
    NextsWithout(ns, k);
    PrevsWithout(ns, k);
  }

  /** The list of endpoints of one instance. */
  class Table {
    var head: Node?
    ghost var nodes: seq<Node>

    constructor ()
      ensures Valid() && Contents() == []
    {
      head, nodes := null, [];
    }

    ghost function Contents(): seq<Endpoint>
      reads this
    {
      Datas(nodes)
    }

    ghost predicate Linked()
      reads this, nodes
    {
      head == NodeAt(nodes, 0) && Chained(nodes)
    }

    ghost predicate Valid()
      reads this, nodes
    {
      Linked() && Distinct(Contents())
    }

    /** `rpmsg_lite_get_endpoint_from_addr` */
    method Find(addr: u32) returns (node: Node?, ghost k: nat)
      requires Valid()
      ensures node == null <==> !Uses(Contents(), addr)
      ensures node != null ==> k < |nodes| && node == nodes[k] && node.data.addr == addr
    {
      node, k := head, 0;
      while node != null
        invariant k <= |nodes| && node == NodeAt(nodes, k)
        invariant forall i | 0 <= i < k :: nodes[i].data.addr != addr
        decreases |nodes| - k
      {
        if node.data.addr == addr {
          assert Contents()[k].addr == addr;
          return;
        }
        node, k := node.next, k + 1;
      }
    }

    /** `add_to_list` */
    method Add(node: Node)
      requires Linked() && node !in nodes
      modifies this, node, head
      ensures Linked() && nodes == [node] + old(nodes)
    {
      if head != null {
        node.next := head;
        node.prev := null;
        head.prev := node;
        head := node;
      } else {
        head := node;
        node.next := null;
        node.prev := null;
      }
      ghost var rest := nodes;
      nodes := [node] + nodes;
      assert forall i | 1 <= i < |nodes| :: nodes[i] == rest[i - 1];
    }

    /** `remove_from_list`: the pointers it writes, */
    method Unlink(node: Node, ghost k: nat)
      requires Linked() && k < |nodes| && node == nodes[k]
      modifies this`head, nodes
      ensures head == NodeAt(nodes, if k == 0 then 1 else 0)
      ensures forall i | 0 <= i < |nodes| && i != k - 1 && i != k :: nodes[i].next == NodeAt(nodes, i + 1)
      ensures forall i | 1 <= i < |nodes| && i != k && i != k + 1 :: nodes[i].prev == NodeAt(nodes, i - 1)
      ensures k > 0 ==> nodes[k - 1].next == NodeAt(nodes, k + 1)
      ensures k + 1 < |nodes| ==> nodes[k + 1].prev == if k == 0 then node else nodes[k - 1]
    {
      ghost var before, after := NodeAt(nodes, k - 1), NodeAt(nodes, k + 1);
      assert k > 0 ==> node.prev == before && before != node;
      assert node.next == after && after != node;
      assert after != null ==> after.prev == node && after != before;
      assert node == head <==> k == 0;
      if node == head {
        head := head.next;
      } else if node.next == null {
        node.prev.next := node.next;
      } else {
        node.prev.next := node.next;
        node.next.prev := node.prev;
      }
    }

    /** and what they make of the list. A new head keeps its stale backward link to the removed node. */
    method Remove(node: Node, ghost k: nat)
      requires Linked() && k < |nodes| && node == nodes[k]
      modifies this, nodes
      ensures Linked() && nodes == SkipAt(old(nodes), k)
      ensures k == 0 && nodes != [] ==> nodes[0].prev == node
    {
      hide SkipAt;
      Unlink(node, k);
      SkipChained(nodes, k);
      if k == 0 { SkipIndex(nodes, 0, 0); }
      nodes := SkipAt(nodes, k);
    }

    /** The search of `rpmsg_lite_create_ept` for the lowest free address. */
    method LowestFree() returns (addr: u32)
      requires Valid()
      ensures addr == FreeFrom(Contents(), 1)
    {
      hide Distinct, Uses;
      addr := ADDR_ANY;
      var i: u32 := 1;
      while i < ADDR_ANY
        invariant 1 <= i && addr == ADDR_ANY && forall a: u32 :: 1 <= a < i ==> Uses(Contents(), a)
      {
        var found, _ := Find(i);
        if found == null {
          addr := i;
          break;
        }
        i := i + 1;
      }
    }

    /** `rpmsg_lite_create_ept`; granted is whether there is memory for an endpoint and its node. The new
        endpoint is in front, with the callback and context given, at the address given or at the least
        one not in use. */
    method CreateEpt(addr: u32, rxCb: nat, rxCbData: nat, granted: bool) returns (node: Node?)
      requires Valid()
      modifies this, head
      ensures Valid()
      ensures node != null <==>
                && granted
                && if addr == ADDR_ANY then exists a: u32 :: 1 <= a < ADDR_ANY && !Uses(old(Contents()), a)
                   else !Uses(old(Contents()), addr)
      ensures node == null ==> nodes == old(nodes)
      ensures node != null ==>
                && fresh(node) && nodes == [node] + old(nodes) && Contents() == [node.data] + old(Contents())
                && node.data.rxCb == rxCb && node.data.rxCbData == rxCbData
                && (addr != ADDR_ANY ==> node.data.addr == addr)
                && (addr == ADDR_ANY ==>
                      && 1 <= node.data.addr < ADDR_ANY && !Uses(old(Contents()), node.data.addr)
                      && forall a: u32 :: 1 <= a < node.data.addr ==> Uses(old(Contents()), a))
      ensures Contents() == if granted then Applied(old(Contents()), Create(addr, rxCb, rxCbData)) else old(Contents())
    {
      hide Distinct, Uses, FreeFrom;
      ghost var es := Contents();
      ChosenIsFree(es, addr);
      var chosen := addr;
      if addr == ADDR_ANY {
        chosen := LowestFree();
        if chosen == ADDR_ANY {
          return null;
        }
      } else {
        var found, _ := Find(addr);
        if found != null {
          return null;
        }
      }
      if !granted {
        return null;
      }
      AppliedDistinct(es, Create(addr, rxCb, rxCbData));
      node := new Node(Endpoint(chosen, rxCb, rxCbData));
      DatasCons(node, nodes);
      Add(node);
    }

    /** `rpmsg_lite_destroy_ept`: the node is looked up by the address of the endpoint. */
    method DestroyEpt(addr: u32) returns (status: int)
      requires Valid()
      modifies this, nodes
      ensures Valid() && Contents() == Applied(old(Contents()), Destroy(addr))
      ensures status == if Uses(old(Contents()), addr) then RL_SUCCESS else RL_ERR_PARAM
      ensures status == RL_SUCCESS ==>
                exists k | 0 <= k < |old(nodes)| ::
                  old(nodes)[k].data.addr == addr && nodes == old(nodes)[..k] + old(nodes)[k + 1..]
      ensures status != RL_SUCCESS ==> nodes == old(nodes)
    {
      hide Distinct, Uses;
      ghost var es := Contents();
      var node, k := Find(addr);
      if node != null {
        WithoutAt(es, k);
        WithoutDistinct(es, addr);
        DatasSkip(nodes, k);
        Remove(node, k);
        status := RL_SUCCESS;
      } else {
        WithoutUnused(es, addr);
        status := RL_ERR_PARAM;
      }
    }
  }
}
