/** The circular list of sockets that wait for their handshake, and the sweep that drops the ones that took too long. */
module TimeoutList {
  const TIMEOUT_THRESHOLD_SEC := 3

  class Node {
    var next: Node?
    var prev: Node?
    const startTime: int
    // the socket has been destroyed; nothing may look at it any more
    var destroyed: bool

    // ussl_dlink_init
    constructor (startTime: int)
      ensures this.startTime == startTime && next == this && prev == this && !destroyed
    {
      this.startTime, destroyed := startTime, false;
      new;
      next, prev := this, this;
    }
  }

  // ---------------------------------------------------------------- well-formed lists

  ghost function RingOf(head: Node, nodes: seq<Node>): seq<Node> {
    [head] + nodes + [head]
  }

  ghost function All(head: Node, nodes: seq<Node>): set<Node> {
    set x | x in RingOf(head, nodes)
  }

  ghost predicate Distinct(head: Node, nodes: seq<Node>) {
    head !in nodes && forall i, j | 0 <= i < j < |nodes| :: nodes[i] != nodes[j]
  }

  /** The head and the nodes, each once, linked to the next and back, and around to the head again. */
  ghost predicate IsRing(head: Node, nodes: seq<Node>)
    reads All(head, nodes)
  {
    && Distinct(head, nodes)
    && var r := RingOf(head, nodes);
       forall i, j | 0 <= i < j < |r| && j == i + 1 :: r[i].next == r[j] && r[j].prev == r[i]
  }

  // The links of a ring, unless they are changed, leave every node once and enter every node once.
  lemma RingIsSimple(head: Node, nodes: seq<Node>)
    requires Distinct(head, nodes)
    ensures var r := RingOf(head, nodes);
            && (forall i, j | 0 <= i < j < |r| - 1 :: r[i] != r[j])
            && (forall i, j | 0 < i < j < |r| :: r[i] != r[j])
  {
  }

  // ussl_dlink_insert
  method Insert(head: Node, n: Node, ghost nodes: seq<Node>)
    requires IsRing(head, nodes) && n !in RingOf(head, nodes)
    modifies All(head, nodes)`next, All(head, nodes)`prev, n`next, n`prev
    ensures IsRing(head, [n] + nodes)
  {
    ghost var r := RingOf(head, nodes);
    RingIsSimple(head, nodes);
    assert r[0] == head && head.next == r[1];
    var next := head.next;
    n.prev := head;
    n.next := next;
    head.next := n;
    next.prev := n;
    ghost var r' := RingOf(head, [n] + nodes);
    assert r' == [head, n] + r[1..];
  }

  lemma WithoutNode(head: Node, nodes: seq<Node>, k: nat)
    requires Distinct(head, nodes) && k < |nodes|
    ensures var r, rest := RingOf(head, nodes), nodes[..k] + nodes[k + 1..];
            && Distinct(head, rest) && nodes[k] !in RingOf(head, rest)
            && RingOf(head, rest) == r[..k + 1] + r[k + 2..]
  {
  }

  /** ussl_dlink_delete of a node of the list. */
  method Unlink(n: Node, ghost head: Node, ghost nodes: seq<Node>, ghost k: nat)
    requires IsRing(head, nodes) && k < |nodes| && nodes[k] == n
    modifies All(head, nodes)`next, All(head, nodes)`prev
    ensures IsRing(head, nodes[..k] + nodes[k + 1..]) && n.next == null
    ensures n !in RingOf(head, nodes[..k] + nodes[k + 1..])
  {
    ghost var r := RingOf(head, nodes);
    RingIsSimple(head, nodes);
    assert r[k + 1] == n && n.next == r[k + 2] && n.prev == r[k];
    var prev, next := n.prev, n.next;
    prev.next := next;
    next.prev := prev;
    n.next := null;
    WithoutNode(head, nodes, k);
    ghost var r' := RingOf(head, nodes[..k] + nodes[k + 1..]);
    forall i, j | 0 <= i < j < |r'| && j == i + 1 ensures r'[i].next == r'[j] && r'[j].prev == r'[i] {
      assert r'[i] == if i <= k then r[i] else r[i + 1];
      assert r'[j] == if j <= k then r[j] else r[j + 1];
    }
  }

  /** ussl_dlink_delete: a node that has been deleted already is left alone, and so is everything else. */
  method Delete(n: Node, ghost head: Node, ghost nodes: seq<Node>, ghost k: nat)
    requires IsRing(head, nodes) && (n.next != null ==> k < |nodes| && nodes[k] == n)
    modifies All(head, nodes)`next, All(head, nodes)`prev
    ensures n.next == null
    ensures old(n.next) == null ==> forall x | x in All(head, nodes) :: unchanged(x)
    ensures old(n.next) != null ==>
              && IsRing(head, nodes[..k] + nodes[k + 1..]) && n !in RingOf(head, nodes[..k] + nodes[k + 1..])
  {
    if n.next != null {
      Unlink(n, head, nodes, k);
    }
  }

  // ---------------------------------------------------------------- the sweep

  predicate TimedOut(n: Node, now: int) {
    now - n.startTime > TIMEOUT_THRESHOLD_SEC
  }

  // The nodes that stay, in their order.
  ghost function Young(nodes: seq<Node>, now: int): seq<Node> {
    if nodes == [] then []
    else Young(nodes[..|nodes| - 1], now)
         + (if TimedOut(nodes[|nodes| - 1], now) then [] else [nodes[|nodes| - 1]])
  }

  /** Young keeps exactly the nodes that have not timed out. */
  lemma {:induction false} YoungIsExact(nodes: seq<Node>, now: int, n: Node)
    ensures n in Young(nodes, now) <==> n in nodes && now - n.startTime <= 3
  {
    if nodes != [] {
      var k := |nodes| - 1;
      YoungIsExact(nodes[..k], now, n);
      assert nodes == nodes[..k] + [nodes[k]];
    }
  }

  /** And it keeps their order. */
  lemma {:induction false} YoungKeepsOrder(nodes: seq<Node>, now: int, i: nat, j: nat) returns (a: nat, b: nat)
    requires i < j < |Young(nodes, now)|
    ensures a < b < |nodes| && nodes[a] == Young(nodes, now)[i] && nodes[b] == Young(nodes, now)[j]
  {
    var k := |nodes| - 1;
    var young := Young(nodes[..k], now);
    if j < |young| {
      a, b := YoungKeepsOrder(nodes[..k], now, i, j);
    } else {
      YoungIsExact(nodes[..k], now, young[i]);
      a :| 0 <= a < k && nodes[a] == young[i];
      b := k;
    }
  }

  lemma YoungStep(nodes: seq<Node>, now: int, i: nat)
    requires i < |nodes|
    ensures Young(nodes[..i + 1], now) == Young(nodes[..i], now) + if TimedOut(nodes[i], now) then [] else [nodes[i]]
  {
    assert nodes[..i + 1][..i] == nodes[..i];
  }

  // What is left to visit, behind what has been kept.
  ghost function Current(nodes: seq<Node>, now: int, i: nat): seq<Node>
    requires i <= |nodes|
  {
    Young(nodes[..i], now) + nodes[i..]
  }

  // handle_client_timeout_event and handle_server_timeout_event: destroying a socket deletes its link once more.
  method Destroy(n: Node, ghost head: Node, ghost nodes: seq<Node>)
    requires IsRing(head, nodes) && n.next == null && n !in RingOf(head, nodes)
    modifies All(head, nodes)`next, All(head, nodes)`prev, n`destroyed
    ensures IsRing(head, nodes) && n.destroyed
  {
    Delete(n, head, nodes, 0);
    n.destroyed := true;
  }

  lemma CurrentStep(nodes: seq<Node>, now: int, i: nat)
    requires i < |nodes|
    ensures var k := |Young(nodes[..i], now)|;
            && k < |Current(nodes, now, i)| && Current(nodes, now, i)[k] == nodes[i]
            && Current(nodes, now, i)[k + 1..] == nodes[i + 1..]
            && Current(nodes, now, i + 1) ==
                 if TimedOut(nodes[i], now) then Current(nodes, now, i)[..k] + Current(nodes, now, i)[k + 1..]
                 else Current(nodes, now, i)
  {
    YoungStep(nodes, now, i);
    assert nodes[i..] == [nodes[i]] + nodes[i + 1..];
  }

  lemma CurrentIsPart(head: Node, nodes: seq<Node>, now: int, i: nat)
    requires i <= |nodes|
    ensures All(head, Current(nodes, now, i)) <= All(head, nodes)
  {
    forall x | x in Young(nodes[..i], now) ensures x in nodes {
      YoungIsExact(nodes[..i], now, x);
    }
  }

  // The node at k has neighbours: its own links are set.
  lemma NodeIsLinked(head: Node, nodes: seq<Node>, k: nat)
    requires IsRing(head, nodes) && k < |nodes|
    ensures nodes[k].next == if k + 1 < |nodes| then nodes[k + 1] else head
  {
    var r := RingOf(head, nodes);
    assert r[k + 1] == nodes[k] && r[k + 1].next == r[k + 2];
  }

  method Drop(n: Node, ghost head: Node, ghost nodes: seq<Node>, ghost k: nat)
    requires IsRing(head, nodes) && k < |nodes| && nodes[k] == n
    modifies All(head, nodes)`next, All(head, nodes)`prev, n`destroyed
    ensures IsRing(head, nodes[..k] + nodes[k + 1..]) && n.destroyed
  {
    NodeIsLinked(head, nodes, k);
    Delete(n, head, nodes, k);
    ghost var rest := nodes[..k] + nodes[k + 1..];
    assert All(head, rest) <= All(head, nodes);
    Destroy(n, head, rest);
  }

  // One turn of the sweep, at the i-th of the nodes it started with.
  method SweepNode(p: Node, now: int, ghost head: Node, ghost nodes: seq<Node>, ghost i: nat)
    requires i < |nodes| && p == nodes[i] && !p.destroyed && IsRing(head, Current(nodes, now, i))
    modifies All(head, nodes)`next, All(head, nodes)`prev, p`destroyed
    ensures IsRing(head, Current(nodes, now, i + 1)) && (p.destroyed <==> TimedOut(p, now))
  {
    CurrentStep(nodes, now, i);
    CurrentIsPart(head, nodes, now, i);
    if now - p.startTime > TIMEOUT_THRESHOLD_SEC {
      Drop(p, head, Current(nodes, now, i), |Young(nodes[..i], now)|);
    }
  }

  lemma FirstIsLinked(head: Node, nodes: seq<Node>)
    requires IsRing(head, nodes)
    ensures head.next == if nodes == [] then head else nodes[0]
  {
    assert RingOf(head, nodes)[0] == head && head.next == RingOf(head, nodes)[1];
  }

  lemma NextIsLinked(head: Node, nodes: seq<Node>, now: int, i: nat)
    requires i < |nodes| && IsRing(head, Current(nodes, now, i))
    ensures nodes[i].next == if i + 1 < |nodes| then nodes[i + 1] else head
  {
    CurrentStep(nodes, now, i);
    NodeIsLinked(head, Current(nodes, now, i), |Young(nodes[..i], now)|);
  }

  /** After i turns: the ring holds what is kept and what is to come, and the timed out among the first i are gone. */
  ghost predicate Swept(head: Node, nodes: seq<Node>, now: int, i: nat)
    reads All(head, nodes)
  {
    && i <= |nodes| && Distinct(head, nodes)
    && (CurrentIsPart(head, nodes, now, i); IsRing(head, Current(nodes, now, i)))
    && !head.destroyed
    && forall j | 0 <= j < |nodes| :: nodes[j].destroyed <==> j < i && TimedOut(nodes[j], now)
  }

  lemma NothingSwept(head: Node, nodes: seq<Node>, now: int)
    requires IsRing(head, nodes) && !head.destroyed && forall j | 0 <= j < |nodes| :: !nodes[j].destroyed
    ensures Swept(head, nodes, now, 0)
  {
    assert Current(nodes, now, 0) == nodes;
  }

  lemma AllSwept(head: Node, nodes: seq<Node>, now: int)
    requires Swept(head, nodes, now, |nodes|)
    ensures IsRing(head, Young(nodes, now))
    ensures forall j | 0 <= j < |nodes| :: nodes[j].destroyed <==> TimedOut(nodes[j], now)
  {
    assert nodes[..|nodes|] == nodes;
    assert Current(nodes, now, |nodes|) == Young(nodes, now);
  }

  method Turn(p: Node, now: int, ghost head: Node, ghost nodes: seq<Node>, ghost i: nat) returns (following: Node)
    requires Swept(head, nodes, now, i) && i < |nodes| && p == nodes[i]
    modifies All(head, nodes)
    ensures Swept(head, nodes, now, i + 1) && following == if i + 1 < |nodes| then nodes[i + 1] else head
  {
    NextIsLinked(head, nodes, now, i);
    following := p.next;
    SweepNode(p, now, head, nodes, i);
  }

  /**
   The sweep visits every node once, in order, and ends; it removes and destroys exactly those that have timed out,
   keeps the others linked in their order, and never looks at a node that has been destroyed.
   */
  method CheckAndHandleTimeoutEvent(head: Node, now: int, ghost nodes: seq<Node>) returns (ghost visited: seq<Node>)
    requires IsRing(head, nodes) && !head.destroyed && forall j | 0 <= j < |nodes| :: !nodes[j].destroyed
    modifies All(head, nodes)
    ensures visited == nodes && !head.destroyed
    ensures IsRing(head, Young(nodes, now))
    ensures forall j | 0 <= j < |nodes| :: nodes[j].destroyed <==> now - nodes[j].startTime > 3
  {
    ghost var i := 0;
    visited := [];
    NothingSwept(head, nodes, now);
    FirstIsLinked(head, nodes);
    var p: Node := head.next;
    while p != head
      invariant Swept(head, nodes, now, i)
      invariant visited == nodes[..i] && p == if i < |nodes| then nodes[i] else head
      decreases |nodes| - i
    {
      assert !p.destroyed;
      visited := visited + [p];
      p := Turn(p, now, head, nodes, i);
      i := i + 1;
    }
    AllSwept(head, nodes, now);
  }
}
