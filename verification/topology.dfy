/** The peer topology (src/dop_topology.c): nodes that each carry one
    component and a fixed table of at most four peers, and a build topology
    of up to sixteen nodes. Modelled are node creation, appending a peer,
    and the net gate effect of the fault-tolerance probe; the worker threads
    and the network start are not part of this model. */
module DopTopology {
  import opened DopTypes
  import DopCore

  /** The capacity of a node's peer table. */
  const MaxPeers: nat := 4

  /** The capacity of a build topology's node table. */
  const MaxNodes: nat := 16

  /** The size of the node identifier buffer, terminator included. */
  const NodeIdSize: nat := 64

  class TopologyNode {
    var nodeId: string
    var component: Component?
    const peers: array<TopologyNode?>
    var peerCount: u32
    var isFaultTolerant: bool

    /** The table has its fixed capacity and the count never exceeds it. */
    predicate Valid()
      reads this
    {
      peers.Length == MaxPeers && peerCount <= MaxPeers
    }

    /** The peers added so far, in the order they were added. */
    function Peers(): (ps: seq<TopologyNode?>)
      requires Valid()
      reads this, peers
      ensures |ps| == peerCount as int
    {
      peers[..peerCount]
    }

    /** A zero-filled node carrying the given identifier and component, with
        no peers and marked fault tolerant. */
    constructor (id: string, c: Component)
      ensures Valid() && fresh(peers)
      ensures nodeId == id && component == c && peerCount == 0 && isFaultTolerant
      ensures forall i :: 0 <= i < peers.Length ==> peers[i] == null
    {
      nodeId := id;
      component := c;
      peers := new TopologyNode?[MaxPeers](_ => null);
      peerCount := 0;
      isFaultTolerant := true;
    }
  }

  /** What a bounded copy into the identifier buffer keeps of `id`: at most
      the first 63 characters. */
  function BoundedId(id: string): (r: string)
    ensures |r| < NodeIdSize
    ensures |r| <= |id| && r == id[..|r|]
    ensures |id| < NodeIdSize ==> r == id
  {
    if |id| < NodeIdSize then id else id[..NodeIdSize - 1]
  }

  /** `dop_topology_create_node`: NULL when the identifier or the component is
      missing; otherwise a fresh node with no peers, fault tolerant, holding
      the component and the bounded copy of the identifier. */
  method CreateNode(nodeId: Option<string>, c: Component?) returns (node: TopologyNode?)
    ensures node == null <==> nodeId.None? || c == null
    ensures node != null ==>
      && fresh(node) && fresh(node.peers) && node.Valid()
      && node.nodeId == BoundedId(nodeId.value)
      && node.component == c && node.peerCount == 0 && node.isFaultTolerant
  {
    if nodeId.None? || c == null {
      return null;
    }
    node := new TopologyNode(BoundedId(nodeId.value), c);
  }

  /** `dop_topology_add_peer`: INVALID_PARAMETER and no change for a missing
      node or peer or a full table; otherwise the peer goes into the next
      free slot and the count grows by one. There is no check against
      duplicates or against the node itself. */
  method AddPeer(node: TopologyNode?, peer: TopologyNode?) returns (err: int)
    requires node != null ==> node.Valid()
    modifies if node == null then {} else {node, node.peers}
    ensures node != null ==> node.Valid()
    ensures node != null ==>
      node.nodeId == old(node.nodeId) && node.component == old(node.component)
      && node.isFaultTolerant == old(node.isFaultTolerant)
    ensures node == null || peer == null || old(node.peerCount) >= MaxPeers ==>
      && err == InvalidParameter
      && (node != null ==> node.peerCount == old(node.peerCount) && node.peers[..] == old(node.peers[..]))
    ensures node != null && peer != null && old(node.peerCount) < MaxPeers ==>
      && err == Success
      && node.peerCount == old(node.peerCount) + 1
      && node.peers[..] == old(node.peers[..])[old(node.peerCount) := peer]
      && node.Peers() == old(node.Peers()) + [peer]
  {
    if node == null || peer == null || node.peerCount >= 4 {
      return InvalidParameter;
    }
    node.peers[node.peerCount] := peer;
    node.peerCount := node.peerCount + 1;
    return Success;
  }

  /** Adding the same peer twice takes two slots: the table keeps duplicates. */
  method AddPeerTwice(node: TopologyNode, peer: TopologyNode) returns (first: int, second: int)
    requires node.Valid() && node.peerCount as int + 2 <= MaxPeers
    modifies node, node.peers
    ensures node.Valid() && first == Success && second == Success
    ensures node.Peers() == old(node.Peers()) + [peer, peer]
  {
    first := AddPeer(node, peer);
    second := AddPeer(node, peer);
  }

  class BuildTopology {
    const nodes: array<TopologyNode?>
    var nodeCount: u32

    predicate Valid()
      reads this
    {
      nodes.Length == MaxNodes
    }

    /** An empty topology. */
    constructor ()
      ensures Valid() && fresh(nodes) && nodeCount == 0
    {
      nodes := new TopologyNode?[MaxNodes](_ => null);
      nodeCount := 0;
    }
  }

  /** The component the fault-tolerance probe acts on: that of the first node,
      when there is more than one node and the first carries a component. */
  function ProbeTarget(t: BuildTopology?): (c: Component?)
    requires t != null ==> t.Valid()
    reads t, if t == null then {} else {t.nodes}
    reads if t == null || t.nodes[0] == null then {} else {t.nodes[0]}
    ensures c != null ==> t != null && t.nodeCount > 1 && t.nodes[0] != null
    ensures t != null && t.nodeCount > 1 && t.nodes[0] != null ==> c == t.nodes[0].component
  {
    if t == null || t.nodeCount <= 1 || t.nodes[0] == null then null else t.nodes[0].component
  }

  /** `dop_topology_test_fault_tolerance`: INVALID_PARAMETER for NULL,
      otherwise SUCCESS. The first node's gate is closed and then opened
      again (the pause between them is not part of this model), so its
      component ends with an OPEN gate whatever the gate was before, even
      ISOLATED, and its data and checksum unchanged. */
  method TestFaultTolerance(t: BuildTopology?) returns (err: int)
    requires t != null ==> t.Valid()
    modifies ProbeTarget(t)
    ensures t == null ==> err == InvalidParameter
    ensures t != null ==> err == Success
    ensures old(ProbeTarget(t)) != null ==>
      var c := old(ProbeTarget(t));
      && c.metadata == old(c.metadata).(gate := Open)
      && c.data == old(c.data) && c.checksum == old(c.checksum)
  {
    if t == null {
      return InvalidParameter;
    }
    if t.nodeCount > 1 {
      var testNode := t.nodes[0];
      if testNode != null && testNode.component != null {
        var c := testNode.component;
        var _ := DopCore.GateClose(c);
        var _ := DopCore.GateOpen(c);
      }
    }
    return Success;
  }
}
