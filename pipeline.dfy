/**
 The pipeline graph store: a table of registered nodes keyed by id and, for
 each node that has outgoing edges, the ordered list of the ids it feeds.
 Nodes are registered under the id the caller supplies; edges are accepted
 only between registered nodes; the flow of the pipeline is the total
 capacity of its data-source nodes.
 */
module Pipeline {

  /** The type tag a data-source node carries. */
  const DataSource: string := "DataSource"

  /** One node of the pipeline: its id, its type tag and its capacity. */
  datatype NodeModule = NodeModule(id: int, nodeType: string, capacity: real)

  /** The answer of a lookup: a node, or nothing for an unknown id. */
  datatype Option<T> = None | Some(value: T)

  /** What one node adds to the pipeline's flow. */
  function Contribution(n: NodeModule): real
  {
    if n.nodeType == DataSource then n.capacity else 0.0
  }

  /** A non-empty node table has a key to pick. */
  lemma NonEmptyHasKey(nodes: map<int, NodeModule>)
    requires |nodes| != 0
    ensures exists k :: k in nodes
  {
    if forall k :: k !in nodes {
      assert false;
    }
  }

  /** The key `TotalFlow` takes out of a non-empty node table first. */
  ghost function PickKey(nodes: map<int, NodeModule>): (k: int)
    requires |nodes| != 0
    ensures k in nodes
  {
    NonEmptyHasKey(nodes);
    var k :| k in nodes;
    k
  }

  /** The total capacity of the data-source nodes of a node table. */
  ghost function TotalFlow(nodes: map<int, NodeModule>): real
    decreases |nodes|
  {
    if |nodes| == 0 then 0.0
    else
      var k := PickKey(nodes);
      Contribution(nodes[k]) + TotalFlow(nodes - {k})
  }

  /** Every node is stored under its own id. */
  ghost predicate KeyedById(nodes: map<int, NodeModule>)
  {
    forall k :: k in nodes ==> nodes[k].id == k
  }

  /** Every edge starts and ends at a registered node. */
  ghost predicate EdgesRegistered(nodes: map<int, NodeModule>, connections: map<int, seq<int>>)
  {
    forall from :: from in connections ==>
      from in nodes && forall to :: to in connections[from] ==> to in nodes
  }

  /** The targets of the edges leaving `id`, in insertion order; none if no list was created. */
  function Targets(connections: map<int, seq<int>>, id: int): seq<int>
  {
    if id in connections then connections[id] else []
  }

  /** The node table after registering `node`: a node already stored under its id is kept. */
  function Register(nodes: map<int, NodeModule>, node: NodeModule): (r: map<int, NodeModule>)
    ensures node.id in nodes ==> r == nodes
    ensures node.id !in nodes ==> r.Keys == nodes.Keys + {node.id} && r[node.id] == node
    ensures forall k :: k in nodes ==> k in r && r[k] == nodes[k]
  {
    if node.id in nodes then nodes else nodes[node.id := node]
  }

  /**
   The edge table after asking for the edge `fromId -> toId`: the edge is
   appended to the end of the list of `fromId` when both ends are registered,
   and nothing changes otherwise.
   */
  function Connect(nodes: map<int, NodeModule>, connections: map<int, seq<int>>, fromId: int, toId: int)
    : (r: map<int, seq<int>>)
    ensures fromId in nodes && toId in nodes ==>
      r.Keys == connections.Keys + {fromId} && Targets(r, fromId) == Targets(connections, fromId) + [toId]
    ensures !(fromId in nodes && toId in nodes) ==> r == connections
    ensures forall k :: k in connections && k != fromId ==> k in r && r[k] == connections[k]
  {
    if fromId in nodes && toId in nodes then
      connections[fromId := Targets(connections, fromId) + [toId]]
    else
      connections
  }

  /** Removing any one node from the table takes exactly its contribution off the flow. */
  lemma {:induction false} TotalFlowPick(nodes: map<int, NodeModule>, k: int)
    requires k in nodes
    ensures TotalFlow(nodes) == Contribution(nodes[k]) + TotalFlow(nodes - {k})
    decreases |nodes|
  {
    var j := PickKey(nodes);
    if j != k {
      assert (nodes - {j}) - {k} == (nodes - {k}) - {j};
      TotalFlowPick(nodes - {j}, k);
      TotalFlowPick(nodes - {k}, j);
    }
  }

  /** Registering a node with a fresh id adds its contribution to the flow; a duplicate adds nothing. */
  lemma TotalFlowAfterRegister(nodes: map<int, NodeModule>, node: NodeModule)
    ensures node.id !in nodes ==> TotalFlow(Register(nodes, node)) == TotalFlow(nodes) + Contribution(node)
    ensures node.id in nodes ==> TotalFlow(Register(nodes, node)) == TotalFlow(nodes)
  {
    if node.id !in nodes {
      var r := Register(nodes, node);
      TotalFlowPick(r, node.id);
      assert r - {node.id} == nodes;
    }
  }

  /** A table whose data sources all have non-negative capacity has a non-negative flow. */
  lemma {:induction false} TotalFlowNonNegative(nodes: map<int, NodeModule>)
    requires forall k :: k in nodes && nodes[k].nodeType == DataSource ==> nodes[k].capacity >= 0.0
    ensures TotalFlow(nodes) >= 0.0
    decreases |nodes|
  {
    if |nodes| != 0 {
      NonEmptyHasKey(nodes);
      var k :| k in nodes;
      TotalFlowPick(nodes, k);
      TotalFlowNonNegative(nodes - {k});
    }
  }

  /** Only data sources count: a table without one has zero flow, whatever the other capacities. */
  lemma {:induction false} TotalFlowWithoutSources(nodes: map<int, NodeModule>)
    requires forall k :: k in nodes ==> nodes[k].nodeType != DataSource
    ensures TotalFlow(nodes) == 0.0
    decreases |nodes|
  {
    if |nodes| != 0 {
      NonEmptyHasKey(nodes);
      var k :| k in nodes;
      TotalFlowPick(nodes, k);
      TotalFlowWithoutSources(nodes - {k});
    }
  }

  /** The first registration under an id wins: a second node with the same id is ignored. */
  lemma FirstRegistrationWins(nodes: map<int, NodeModule>, first: NodeModule, second: NodeModule)
    requires first.id !in nodes && second.id == first.id
    ensures Register(Register(nodes, first), second) == Register(nodes, first)
    ensures Register(Register(nodes, first), second)[first.id] == first
  {
  }

  /** Registering a node keeps every edge pointing at registered nodes, and keeps nodes keyed by id. */
  lemma RegisterPreservesIntegrity(nodes: map<int, NodeModule>, connections: map<int, seq<int>>, node: NodeModule)
    requires KeyedById(nodes) && EdgesRegistered(nodes, connections)
    ensures KeyedById(Register(nodes, node)) && EdgesRegistered(Register(nodes, node), connections)
  {
  }

  /** Connecting keeps every edge pointing at registered nodes. */
  lemma ConnectPreservesIntegrity(nodes: map<int, NodeModule>, connections: map<int, seq<int>>, fromId: int, toId: int)
    requires EdgesRegistered(nodes, connections)
    ensures EdgesRegistered(nodes, Connect(nodes, connections, fromId, toId))
  {
  }

  /** Asking twice for the same edge keeps both copies: edges are not deduplicated. */
  lemma ConnectTwiceKeepsParallelEdges(nodes: map<int, NodeModule>, connections: map<int, seq<int>>, x: int, y: int)
    requires x in nodes && y in nodes
    ensures Targets(Connect(nodes, Connect(nodes, connections, x, y), x, y), x) == Targets(connections, x) + [y, y]
    ensures multiset(Targets(Connect(nodes, Connect(nodes, connections, x, y), x, y), x))[y]
         == multiset(Targets(connections, x))[y] + 2
  {
  }

  /** The graph store: the node table and the out-edge lists, both updated in place. */
  class PipelineManager {
    var nodes: map<int, NodeModule>
    var connections: map<int, seq<int>>

    ghost predicate Valid()
      reads this
    {
      KeyedById(nodes) && EdgesRegistered(nodes, connections)
    }

    constructor ()
      ensures Valid()
      ensures nodes == map[] && connections == map[]
    {
      nodes := map[];
      connections := map[];
    }

    /** Registers `node` under its id unless that id is already taken; edges are untouched. */
    method AddNode(node: NodeModule)
      requires Valid()
      modifies this
      ensures Valid()
      ensures nodes == Register(old(nodes), node)
      ensures connections == old(connections)
      ensures node.id !in old(nodes) ==> GetNodeById(node.id) == Some(node)
      ensures node.id in old(nodes) ==> nodes == old(nodes)
      ensures forall id :: id != node.id ==> GetNodeById(id) == old(GetNodeById(id))
    {
      if node.id !in nodes {
        nodes := nodes[node.id := node];
      }
    }

    /**
     Adds the edge `fromId -> toId` when both ends are registered, creating
     the list of `fromId` on its first edge; otherwise changes nothing.
     */
    method ConnectNodes(fromId: int, toId: int)
      requires Valid()
      modifies this
      ensures Valid()
      ensures nodes == old(nodes)
      ensures connections == Connect(old(nodes), old(connections), fromId, toId)
      ensures fromId in nodes && toId in nodes ==>
        Targets(connections, fromId) == Targets(old(connections), fromId) + [toId]
      ensures !(fromId in nodes && toId in nodes) ==> connections == old(connections)
    {
      if fromId in nodes && toId in nodes {
        if fromId !in connections {
          connections := connections[fromId := []];
        }
        connections := connections[fromId := connections[fromId] + [toId]];
      }
    }

    /** Sums the capacity of every data-source node, visiting the node table one entry at a time. */
    method CalculateFlow() returns (totalFlow: real)
      ensures totalFlow == TotalFlow(nodes)
    {
      totalFlow := 0.0;
      var rest := nodes;
      while |rest| != 0
        invariant totalFlow + TotalFlow(rest) == TotalFlow(nodes)
        decreases |rest|
      {
        NonEmptyHasKey(rest);
        var k :| k in rest;
        TotalFlowPick(rest, k);
        if rest[k].nodeType == DataSource {
          totalFlow := totalFlow + rest[k].capacity;
        }
        rest := rest - {k};
      }
    }

    /** The node registered under `id`, or nothing when no node has that id. */
    function GetNodeById(id: int): (r: Option<NodeModule>)
      reads this
      ensures r.Some? <==> id in nodes
      ensures r.Some? ==> r.value == nodes[id]
      ensures r.Some? && KeyedById(nodes) ==> r.value.id == id
    {
      if id in nodes then Some(nodes[id]) else None
    }
  }
}
