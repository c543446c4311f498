/** The topology check on a captured graph. */
module GraphCapture {
  import opened Results
  import opened Pigeonhole

  const RESULT_BYTES: nat := 24
  const FIRST_TOKEN: nat := 0x71300001

  /** `plain` says that the node is a one-thread launch of the tiny kernel. A
      handle is never null. */
  datatype Node = Node(handle: nat, kernel: bool, plain: bool, destination: nat, token: nat)

  datatype Edge = Edge(source: nat, target: nat)

  function Token(slot: nat): nat {
    (FIRST_TOKEN + slot) % 0x1_0000_0000
  }

  predicate OnSlots(node: Node, output: nat) {
    output <= node.destination && (node.destination - output) % RESULT_BYTES == 0
  }

  function SlotOf(node: Node, output: nat): nat {
    if OnSlots(node, output) then (node.destination - output) / RESULT_BYTES else 0
  }

  predicate Serves(node: Node, output: nat, slot: nat) {
    && node.kernel && node.plain
    && node.destination == output + slot * 24
    && node.token == (0x7130_0001 + slot) % 0x1_0000_0000
  }

  function Chain(ordered: seq<nat>): (edges: seq<Edge>)
    ensures |edges| == if ordered == [] then 0 else |ordered| - 1
    ensures forall i :: 0 <= i < |edges| ==> edges[i] == Edge(ordered[i], ordered[i + 1])
  {
    if ordered == [] then [] else seq(|ordered| - 1, i requires 0 <= i < |ordered| - 1 => Edge(ordered[i], ordered[i + 1]))
  }

  /** The handle at position k is that of some node serving slot first + k. */
  ghost predicate Fills(nodes: seq<Node>, output: nat, first: nat, ordered: seq<nat>, k: nat)
    requires k < |ordered|
  {
    exists i :: 0 <= i < |nodes| && nodes[i].handle == ordered[k] && Serves(nodes[i], output, first + k)
  }

  /** `count` nodes, one for each of the `count` slots from `first`, joined by
      exactly the edges of the chain through them, in any order. */
  ghost predicate IsChain(nodes: seq<Node>, edges: seq<Edge>, output: nat, first: nat, count: nat, ordered: seq<nat>) {
    && |nodes| == |ordered| == count
    && (forall k :: 0 <= k < count ==> Fills(nodes, output, first, ordered, k))
    && multiset(edges) == multiset(Chain(ordered))
  }

  predicate Handles(nodes: seq<Node>) {
    && (forall i :: 0 <= i < |nodes| ==> nodes[i].handle != 0)
    && forall i, j :: 0 <= i < j < |nodes| ==> nodes[i].handle != nodes[j].handle
  }

  function HandlesOf(nodes: seq<Node>): (handles: seq<nat>)
    ensures |handles| == |nodes| && forall i :: 0 <= i < |handles| ==> handles[i] == nodes[i].handle
  {
    seq(|nodes|, i requires 0 <= i < |nodes| => nodes[i].handle)
  }

  // ----- The nodes

  /** The node's handle stands in `ordered` at the place of its slot. */
  predicate StandsIn(ordered: seq<nat>, node: Node, output: nat, first: nat) {
    first <= SlotOf(node, output) < first + |ordered| && ordered[SlotOf(node, output) - first] == node.handle
  }

  predicate AllStandIn(ordered: seq<nat>, nodes: seq<Node>, output: nat, first: nat) {
    forall i :: 0 <= i < |nodes| ==> StandsIn(ordered, nodes[i], output, first)
  }

  predicate Inside(node: Node, output: nat, first: nat, count: nat) {
    OnSlots(node, output) && first <= SlotOf(node, output) < first + count && Serves(node, output, SlotOf(node, output))
  }

  lemma ServesIsInside(node: Node, output: nat, first: nat, count: nat, slot: nat)
    requires Serves(node, output, slot) && first <= slot < first + count
    ensures Inside(node, output, first, count) && SlotOf(node, output) == slot
  {
  }

  /** What the node loop checks: every node on a slot of its own. */
  ghost predicate Placed(nodes: seq<Node>, output: nat, first: nat, count: nat) {
    && (forall i :: 0 <= i < |nodes| ==> Inside(nodes[i], output, first, count))
    && forall i, j :: 0 <= i < j < |nodes| ==> SlotOf(nodes[i], output) != SlotOf(nodes[j], output)
  }

  function Position(node: Node, output: nat, first: nat): (p: nat)
    ensures first <= SlotOf(node, output) ==> p == SlotOf(node, output) - first
  {
    if first <= SlotOf(node, output) then SlotOf(node, output) - first else 0
  }

  /** As many nodes as slots, each on a slot of its own, leave no slot unserved. */
  lemma PlacedFillsAll(nodes: seq<Node>, output: nat, first: nat, count: nat, k: nat) returns (i: nat)
    requires Placed(nodes, output, first, count) && |nodes| == count && k < count
    ensures i < count && SlotOf(nodes[i], output) == first + k
  {
    hide SlotOf, OnSlots, Serves, Position;
    var p := seq(|nodes|, i requires 0 <= i < |nodes| => Position(nodes[i], output, first));
    forall i | 0 <= i < |p| ensures p[i] == SlotOf(nodes[i], output) - first < count {
      assert Inside(nodes[i], output, first, count);
    }
    InjectiveIsOnto(p, k);
    i :| 0 <= i < |p| && p[i] == k;
  }

  /** Slots all served by as many nodes leave no node without a slot. */
  lemma FilledIsPlaced(nodes: seq<Node>, edges: seq<Edge>, output: nat, first: nat, count: nat, ordered: seq<nat>)
    requires Handles(nodes) && IsChain(nodes, edges, output, first, count, ordered)
    ensures |ordered| == count && Placed(nodes, output, first, count) && AllStandIn(ordered, nodes, output, first)
  {
    var server := Servers(nodes, output, first, ordered, count);
    assert |nodes| == |ordered| == count;
    ServersPlaced(nodes, output, first, ordered, server);
  }

  lemma ServersPlaced(nodes: seq<Node>, output: nat, first: nat, ordered: seq<nat>, server: seq<nat>)
    requires |nodes| == |ordered| == |server|
    requires forall k :: 0 <= k < |server| ==>
               server[k] < |nodes| && nodes[server[k]].handle == ordered[k] && Serves(nodes[server[k]], output, first + k)
    ensures Placed(nodes, output, first, |nodes|) && AllStandIn(ordered, nodes, output, first)
  {
    hide Inside, StandsIn, Serves, SlotOf;
    forall k | 0 <= k < |server|
      ensures Inside(nodes[server[k]], output, first, |nodes|) && SlotOf(nodes[server[k]], output) == first + k
      ensures StandsIn(ordered, nodes[server[k]], output, first)
    {
      ServesIsInside(nodes[server[k]], output, first, |nodes|, first + k);
      Stands(ordered, nodes[server[k]], output, first, k);
    }
    assert Injective(server) by {
      if j, k :| 0 <= j < k < |server| && server[j] == server[k] {
        assert SlotOf(nodes[server[j]], output) == first + j;
      }
    }
    forall i: nat | i < |nodes| ensures i in server {
      InjectiveIsOnto(server, i);
    }
    forall i: nat | i < |nodes|
      ensures Inside(nodes[i], output, first, |nodes|) && StandsIn(ordered, nodes[i], output, first)
    {
      assert i in server;
    }
    forall i: nat, j: nat | i < j < |nodes| ensures SlotOf(nodes[i], output) != SlotOf(nodes[j], output) {
      assert i in server && j in server;
      var k :| 0 <= k < |server| && server[k] == i;
      var l :| 0 <= l < |server| && server[l] == j;
    }
  }

  lemma Stands(ordered: seq<nat>, node: Node, output: nat, first: nat, k: nat)
    requires k < |ordered| && SlotOf(node, output) == first + k && node.handle == ordered[k]
    ensures StandsIn(ordered, node, output, first)
  {
  }

  lemma {:induction false} Servers(nodes: seq<Node>, output: nat, first: nat, ordered: seq<nat>,
                                   n: nat) returns (server: seq<nat>)
    requires n <= |ordered| && forall k :: 0 <= k < |ordered| ==> Fills(nodes, output, first, ordered, k)
    ensures |server| == n
    ensures forall k :: 0 <= k < n ==>
              server[k] < |nodes| && nodes[server[k]].handle == ordered[k] && Serves(nodes[server[k]], output, first + k)
  {
    if n == 0 {
      server := [];
    } else {
      server := Servers(nodes, output, first, ordered, n - 1);
      assert Fills(nodes, output, first, ordered, n - 1);
      var i :| 0 <= i < |nodes| && nodes[i].handle == ordered[n - 1] && Serves(nodes[i], output, first + n - 1);
      server := server + [i];
    }
  }

  /** Fills `ordered`, one handle per slot; null means not filled. */
  method PlaceNodes(nodes: seq<Node>, output: nat, first: nat, count: nat, ordered: array<nat>) returns (placed: bool)
    requires Handles(nodes) && ordered.Length == count && forall k :: 0 <= k < count ==> ordered[k] == 0
    modifies ordered
    ensures placed <==> Placed(nodes, output, first, count)
    ensures placed ==> AllStandIn(ordered[..], nodes, output, first)
  {
    hide Inside, SlotOf, OnSlots, Serves, Token;
    for i := 0 to |nodes|
      invariant Placed(nodes[..i], output, first, count)
      invariant AllStandIn(ordered[..], nodes[..i], output, first)
      invariant forall k :: 0 <= k < count && ordered[k] != 0 ==>
                  exists j :: 0 <= j < i && SlotOf(nodes[j], output) == first + k
    {
      var h := nodes[i];
      InsideTest(h, output, first, count);
      if !h.kernel || !h.plain || h.destination < output || (h.destination - output) % RESULT_BYTES != 0 {
        return false;
      }
      var slot := (h.destination - output) / RESULT_BYTES;
      if slot < first || slot >= first + count || ordered[slot - first] != 0 || h.token != Token(slot) {
        return false;
      }
      ordered[slot - first] := h.handle;
    }
    assert nodes[..|nodes|] == nodes;
    placed := true;
  }

  lemma InsideTest(node: Node, output: nat, first: nat, count: nat)
    ensures Inside(node, output, first, count)
       <==> && node.kernel && node.plain && output <= node.destination && (node.destination - output) % RESULT_BYTES == 0
            && var slot := (node.destination - output) / RESULT_BYTES;
               first <= slot < first + count && node.token == Token(slot)
    ensures Inside(node, output, first, count) ==> SlotOf(node, output) == (node.destination - output) / RESULT_BYTES
  {
  }

  // ----- The edges

  method CountEdge(edges: seq<Edge>, edge: Edge) returns (matches: nat)
    ensures matches == multiset(edges)[edge]
  {
    matches := 0;
    for e := 0 to |edges|
      invariant matches == multiset(edges[..e])[edge]
    {
      assert edges[..e + 1] == edges[..e] + [edges[e]];
      matches := matches + if edges[e] == edge then 1 else 0;
    }
    assert edges[..|edges|] == edges;
  }

  method CheckEdges(edges: seq<Edge>, ordered: seq<nat>) returns (chained: bool)
    requires Injective(ordered) && |ordered| > 0 && |edges| == |ordered| - 1
    ensures chained <==> multiset(edges) == multiset(Chain(ordered))
  {
    var chain := Chain(ordered);
    PermutationByCount(edges, chain);
    for i := 0 to |ordered| - 1
      invariant forall k :: 0 <= k < i ==> multiset(edges)[chain[k]] == 1
    {
      var matches := CountEdge(edges, Edge(ordered[i], ordered[i + 1]));
      assert chain[i] == Edge(ordered[i], ordered[i + 1]);
      if matches != 1 {
        return false;
      }
    }
    return true;
  }

  /** Accepts exactly the graphs whose nodes biject onto the result slots and whose
      edges are a permutation of the chain through them, and returns that chain. */
  method Capture(nodes: seq<Node>, edges: seq<Edge>, output: nat, first: nat, count: nat) returns (r: Result<seq<nat>>)
    requires Handles(nodes) && count > 0
    ensures r.Ok? <==> exists ordered :: IsChain(nodes, edges, output, first, count, ordered)
    ensures r.Ok? ==> IsChain(nodes, edges, output, first, count, r.value)
    ensures r.Ok? ==> multiset(r.value) == multiset(HandlesOf(nodes))
  {
    hide Placed, Inside, IsChain, Serves, AllStandIn;
    if |nodes| != count || |edges| != count - 1 {
      WrongSize(nodes, edges, output, first, count);
      return Err("Unexpected captured graph topology");
    }
    var ordered := new nat[count](_ => 0);
    var placed := PlaceNodes(nodes, output, first, count, ordered);
    forall any | IsChain(nodes, edges, output, first, count, any) ensures placed && any == ordered[..] {
      FilledIsPlaced(nodes, edges, output, first, count, any);
      SameOrder(nodes, output, first, count, any, ordered[..]);
    }
    if !placed {
      return Err("Graph token/slot is not unique");
    }
    PlacedOrder(nodes, output, first, count, ordered[..]);
    var chained := CheckEdges(edges, ordered[..]);
    ChainedIsChain(nodes, edges, output, first, count, ordered[..]);
    if !chained {
      return Err("Captured graph is not the expected chain");
    }
    return Ok(ordered[..]);
  }

  lemma WrongSize(nodes: seq<Node>, edges: seq<Edge>, output: nat, first: nat, count: nat)
    requires count > 0 && (|nodes| != count || |edges| != count - 1)
    ensures forall ordered :: !IsChain(nodes, edges, output, first, count, ordered)
  {
    forall ordered | IsChain(nodes, edges, output, first, count, ordered) ensures false {
      EqualSize(edges, Chain(ordered));
      assert false;
    }
  }

  lemma EqualSize<T>(s: seq<T>, t: seq<T>)
    ensures multiset(s) == multiset(t) ==> |s| == |t|
  {
    assert |multiset(s)| == |s| && |multiset(t)| == |t|;
  }

  lemma SameOrder(nodes: seq<Node>, output: nat, first: nat, count: nat, a: seq<nat>, b: seq<nat>)
    requires Placed(nodes, output, first, count) && |a| == |b| == |nodes| == count
    requires AllStandIn(a, nodes, output, first)
    requires AllStandIn(b, nodes, output, first)
    ensures a == b
  {
    forall k: nat | k < count ensures a[k] == b[k] {
      var i := PlacedFillsAll(nodes, output, first, count, k);
    }
  }

  lemma PlacedOrder(nodes: seq<Node>, output: nat, first: nat, count: nat, ordered: seq<nat>)
    requires Handles(nodes) && Placed(nodes, output, first, count) && |ordered| == |nodes| == count
    requires AllStandIn(ordered, nodes, output, first)
    ensures Injective(ordered) && multiset(ordered) == multiset(HandlesOf(nodes))
    ensures forall k :: 0 <= k < count ==> Fills(nodes, output, first, ordered, k)
  {
    forall k: nat | k < count ensures Fills(nodes, output, first, ordered, k) {
      var i := PlacedFillsAll(nodes, output, first, count, k);
      assert nodes[i].handle == ordered[k] && Serves(nodes[i], output, first + k);
    }
    forall j: nat, k: nat | j < k < count ensures ordered[j] != ordered[k] {
      var a := PlacedFillsAll(nodes, output, first, count, j);
      var b := PlacedFillsAll(nodes, output, first, count, k);
      assert a != b;
    }
    var handles := HandlesOf(nodes);
    forall i: nat | i < count ensures multiset(handles)[ordered[i]] == 1 {
      var j := PlacedFillsAll(nodes, output, first, count, i);
      InjectiveCount(handles, j);
    }
    PermutationByCount(handles, ordered);
  }

  lemma ChainedIsChain(nodes: seq<Node>, edges: seq<Edge>, output: nat, first: nat, count: nat, ordered: seq<nat>)
    requires |nodes| == |ordered| == count && forall k :: 0 <= k < count ==> Fills(nodes, output, first, ordered, k)
    ensures IsChain(nodes, edges, output, first, count, ordered) <==> multiset(edges) == multiset(Chain(ordered))
  {
  }
}
