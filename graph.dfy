/**
 * A NetworkX graph as the adapters see it: nodes in iteration order, each with
 * its attribute dictionary, and edges in iteration order, each with its two
 * endpoints and its own attribute dictionary. The adapters write into these
 * dictionaries, so the graph is an object.
 */
module NxGraphs {
  import opened PyValues

  /** An edge `(u, v, data)` as `edges(data=True)` yields it. */
  datatype Edge = Edge(u: NxId, v: NxId, attrs: Json)

  /** The contents of a graph. */
  datatype GraphValue = GraphValue(order: seq<NxId>, data: map<NxId, Json>, edges: seq<Edge>)

  /** Every node in the iteration order has a dictionary. */
  ghost predicate NodesListed(g: GraphValue) {
    forall k :: 0 <= k < |g.order| ==> g.order[k] in g.data
  }

  /** What NetworkX guarantees: every node once, with a dictionary, nothing
      else with a dictionary, and every edge endpoint a node. */
  ghost predicate WellFormed(g: GraphValue) {
    && Distinct(g.order)
    && NodesListed(g)
    && (forall id :: id in g.data ==> id in g.order)
    && forall j :: 0 <= j < |g.edges| ==> g.edges[j].u in g.data && g.edges[j].v in g.data
  }

  class NxGraph {
    var order: seq<NxId>
    var data: map<NxId, Json>
    var edges: seq<Edge>

    function Value(): GraphValue
      reads this
    {
      GraphValue(order, data, edges)
    }

    ghost predicate Valid()
      reads this
    {
      WellFormed(Value())
    }

    constructor (g: GraphValue)
      requires WellFormed(g)
      ensures Valid() && Value() == g
    {
      order, data, edges := g.order, g.data, g.edges;
    }

    /** `nx_graph.copy()`: a new graph with the same nodes, edges and
        attributes, sharing nothing with this one. */
    method Copy() returns (h: NxGraph)
      requires Valid()
      ensures fresh(h) && h.Valid() && h.Value() == Value()
    {
      h := new NxGraph(Value());
    }
  }
}
