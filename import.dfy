/**
 * `ADBNX_Adapter.networkx_to_arangodb` (adbnx_adapter/adapter.py): validate the
 * edge definitions, derive the vertex and edge collections, route and key every
 * node, then every edge, and send the resulting documents to ArangoDB through
 * per-collection batch buffers.
 *
 * The specification is a fold over the nodes and then the edges (`NodePass`,
 * `EdgePass`); the state it carries is what the code changes: the node and
 * edge dictionaries, `nx_map`, the sequence of routed documents, and the
 * exception that stopped the run, if any.
 */
module Import {
  import opened PyValues
  import opened AdbIds
  import opened ControllerHooks
  import opened Validation
  import opened Store
  import opened NxGraphs

  /** An edge definition as given by the caller: the keys it has and the values
      under the three keys the adapter reads. */
  datatype EdgeDefinition = EdgeDefinition(
    fields: set<string>,
    edgeCollection: PyValue,
    fromVertexCollections: seq<string>,
    toVertexCollections: seq<string>)

  /** The loop validating every edge definition: the first one that lacks a
      required key raises. */
  function ValidateEdgeDefinitions(eds: seq<EdgeDefinition>): (r: Outcome)
    ensures r.Pass? <==> forall i :: 0 <= i < |eds| ==> EdgeDefinitionAtribs <= eds[i].fields
    decreases |eds|
  {
    if eds == [] then Pass
    else
      var first := ValidateAttributes("Edge Definitions", eds[0].fields, EdgeDefinitionAtribs);
      if first.Fail? then first
      else
        var rest := ValidateEdgeDefinitions(eds[1..]);
        assert rest.Pass? ==> forall i :: 0 <= i < |eds| ==> EdgeDefinitionAtribs <= eds[i].fields by {
          if rest.Pass? {
            forall i | 0 < i < |eds| ensures EdgeDefinitionAtribs <= eds[i].fields {
              assert eds[i] == eds[1..][i - 1];
            }
          }
        }
        rest
  }

  /** `adb_v_cols`: every from and to vertex collection named by some edge
      definition. */
  function VertexCollections(eds: seq<EdgeDefinition>): (cols: set<string>)
    ensures forall c :: c in cols <==> exists i :: (0 <= i < |eds|
      && (c in eds[i].fromVertexCollections || c in eds[i].toVertexCollections))
    decreases |eds|
  {
    if eds == [] then {}
    else
      var last := eds[|eds| - 1];
      var init := eds[..|eds| - 1];
      assert forall i :: 0 <= i < |init| ==> init[i] == eds[i];
      VertexCollections(init) + (set c | c in last.fromVertexCollections + last.toVertexCollections)
  }

  /** `adb_e_cols`: the `str` of every edge definition's edge collection. */
  function EdgeCollections(eds: seq<EdgeDefinition>): (cols: set<string>)
    ensures forall c :: c in cols <==> exists i :: 0 <= i < |eds| && c == Str(eds[i].edgeCollection)
    decreases |eds|
  {
    if eds == [] then {}
    else
      var init := eds[..|eds| - 1];
      assert forall i :: 0 <= i < |init| ==> init[i] == eds[i];
      EdgeCollections(init) + {Str(eds[|eds| - 1].edgeCollection)}
  }

  /** `len(adb_v_cols | adb_e_cols) == 2`. */
  predicate Homogeneous(eds: seq<EdgeDefinition>) {
    |VertexCollections(eds) + EdgeCollections(eds)| == 2
  }

  /** A homogeneous graph has an edge collection to pop, so only the pop of the
      vertex collections can fail. */
  lemma HomogeneousHasEdgeCollection(eds: seq<EdgeDefinition>)
    ensures Homogeneous(eds) ==> EdgeCollections(eds) != {}
  {
    if eds == [] {
      assert VertexCollections(eds) + EdgeCollections(eds) == {};
    } else {
      assert Str(eds[0].edgeCollection) in EdgeCollections(eds);
    }
  }

  /** The collections `set.pop()` may pick: one of each kind for a homogeneous
      graph, none otherwise. */
  ghost predicate FixedChoice(eds: seq<EdgeDefinition>, fixedV: Option<string>, fixedE: Option<string>) {
    if Homogeneous(eds) then
      fixedV.Some? && fixedV.value in VertexCollections(eds)
      && fixedE.Some? && fixedE.value in EdgeCollections(eds)
    else fixedV.None? && fixedE.None?
  }

  /** `nx_map[nx_id] = {"adb_id": ..., "col": ..., "key": ...}`. */
  datatype MapEntry = MapEntry(adbId: string, col: string, key: string)

  /** What decides the routing: the popped collections (`adb_v_col`,
      `adb_e_col`), the controller, and the two keyify flags. */
  datatype ImportConfig = ImportConfig(
    fixedV: Option<string>,
    fixedE: Option<string>,
    hooks: Hooks,
    keyifyNodes: bool,
    keyifyEdges: bool)

  /** The state of an import run. */
  datatype ImportState = ImportState(
    data: map<NxId, Json>,
    edges: seq<Edge>,
    nxMap: map<NxId, MapEntry>,
    routed: seq<(string, Json)>,
    failure: Option<Error>)

  /** `adb_v_col or self.__cntrl._identify_networkx_node(nx_id, nx_node)`. */
  function NodeCollection(cfg: ImportConfig, id: NxId, node: Json): Result<string> {
    if Truthy(cfg.fixedV) then Ok(cfg.fixedV.value) else cfg.hooks.identifyNode(id, node)
  }

  /** The node key: the controller's when keyify_nodes is set, `str(i)` otherwise. */
  function NodeKey(cfg: ImportConfig, i: nat, id: NxId, node: Json, col: string): Result<string> {
    if cfg.keyifyNodes then cfg.hooks.keyifyNode(id, node, col) else Ok(IntToStr(i))
  }

  /** `adb_e_col or self.__cntrl._identify_networkx_edge(nx_edge, from_n, to_n)`. */
  function EdgeCollection(cfg: ImportConfig, e: Json, fromN: Json, toN: Json): Result<string> {
    if Truthy(cfg.fixedE) then Ok(cfg.fixedE.value) else cfg.hooks.identifyEdge(e, fromN, toN)
  }

  /** The edge key: the controller's when keyify_edges is set, `str(i)` otherwise. */
  function EdgeKey(cfg: ImportConfig, j: nat, e: Json, fromN: Json, toN: Json, col: string): Result<string> {
    if cfg.keyifyEdges then cfg.hooks.keyifyEdge(e, fromN, toN, col) else Ok(IntToStr(j))
  }

  /** The collection and the key of node number i. */
  function NodeRoute(cfg: ImportConfig, i: nat, id: NxId, node: Json): Result<(string, string)> {
    var col :- NodeCollection(cfg, id, node);
    var key :- NodeKey(cfg, i, id, node, col);
    Ok((col, key))
  }

  /** The collection and the key of edge number j. */
  function EdgeRoute(cfg: ImportConfig, j: nat, e: Json, fromN: Json, toN: Json): Result<(string, string)> {
    var col :- EdgeCollection(cfg, e, fromN, toN);
    var key :- EdgeKey(cfg, j, e, fromN, toN, col);
    Ok((col, key))
  }

  /** With the collection fixed and the default keys, routing consults no
      controller. */
  lemma NodeRouteDefault(cfg: ImportConfig, i: nat, id: NxId, node: Json)
    requires Truthy(cfg.fixedV) && !cfg.keyifyNodes
    ensures NodeRoute(cfg, i, id, node) == Ok((cfg.fixedV.value, IntToStr(i)))
  {
  }

  lemma EdgeRouteDefault(cfg: ImportConfig, j: nat, e: Json, fromN: Json, toN: Json)
    requires Truthy(cfg.fixedE) && !cfg.keyifyEdges
    ensures EdgeRoute(cfg, j, e, fromN, toN) == Ok((cfg.fixedE.value, IntToStr(j)))
  {
  }

  /** `{"nx_id": id, "col": col, **nx_graph.nodes[id]}`: the node's own
      attributes win over the two added keys. */
  function EdgeContext(id: NxId, col: string, node: Json): Json {
    map["nx_id" := id, "col" := PyStr(col)] + node
  }

  /** One iteration of the node loop, on node number i. */
  function NodeStep(g: GraphValue, cfg: ImportConfig, s: ImportState, i: nat): ImportState
    requires i < |g.order| && g.order[i] in g.data
  {
    var id := g.order[i];
    var node := g.data[id];
    match NodeRoute(cfg, i, id, node)
    case Err(e) => s.(failure := Some(e))
    case Ok(route) => AssignNode(s, id, node, route.0, route.1)
  }

  /** Node id goes to collection col under key: its `_id` is written into its
      dictionary and recorded in nx_map, and the document is routed. */
  function AssignNode(s: ImportState, id: NxId, node: Json, col: string, key: string): ImportState {
    var adbId := MakeId(col, key);
    var doc := node["_id" := PyStr(adbId)];
    s.(data := s.data[id := doc],
       nxMap := s.nxMap[id := MapEntry(adbId, col, key)],
       routed := s.routed + [(col, doc)])
  }

  /** The first n iterations of the node loop; the run stops at the first
      exception. */
  function NodePass(g: GraphValue, cfg: ImportConfig, n: nat): (s: ImportState)
    requires n <= |g.order| && NodesListed(g)
    ensures s.edges == g.edges
    decreases n
  {
    if n == 0 then ImportState(g.data, g.edges, map[], [], None)
    else
      var s := NodePass(g, cfg, n - 1);
      if s.failure.Some? then s else NodeStep(g, cfg, s, n - 1)
  }

  /** The route of edge number j from the contexts the edge loop builds for
      its endpoints (`from_n`, `to_n`); the destination's context takes its
      "col" from the source node's entry in nx_map, as adapter.py:303 does. */
  function EdgeRouteIn(cfg: ImportConfig, nxMap: map<NxId, MapEntry>, data: map<NxId, Json>, j: nat, edge: Edge): Result<(string, string)>
    requires edge.u in nxMap && edge.u in data && edge.v in data
  {
    var fromN := EdgeContext(edge.u, nxMap[edge.u].col, data[edge.u]);
    var toN := EdgeContext(edge.v, nxMap[edge.u].col, data[edge.v]);
    EdgeRoute(cfg, j, edge.attrs, fromN, toN)
  }

  /** One iteration of the edge loop, on edge number j. The context of the
      destination node takes its "col" from the source node's entry in nx_map,
      as adapter.py:303 does. */
  function EdgeStep(cfg: ImportConfig, s: ImportState, j: nat, edge: Edge): ImportState
    requires j < |s.edges|
  {
    var Edge(u, v, e) := edge;
    if u !in s.nxMap then s.(failure := Some(KeyError(u)))
    else if u !in s.data then s.(failure := Some(KeyError(u)))
    else if v !in s.data then s.(failure := Some(KeyError(v)))
    else
      match EdgeRouteIn(cfg, s.nxMap, s.data, j, edge)
      case Err(err) => s.(failure := Some(err))
      case Ok((col, key)) =>
        var withFrom := e["_id" := PyStr(MakeId(col, key))]["_from" := PyStr(s.nxMap[u].adbId)];
        if v !in s.nxMap then
          s.(edges := s.edges[j := Edge(u, v, withFrom)], failure := Some(KeyError(v)))
        else
          var doc := withFrom["_to" := PyStr(s.nxMap[v].adbId)];
          s.(edges := s.edges[j := Edge(u, v, doc)], routed := s.routed + [(col, doc)])
  }

  /** The first m iterations of the edge loop, starting from state s0. */
  function EdgePass(g: GraphValue, cfg: ImportConfig, s0: ImportState, m: nat): (s: ImportState)
    requires m <= |g.edges| && |s0.edges| == |g.edges|
    ensures |s.edges| == |g.edges| && s.data == s0.data && s.nxMap == s0.nxMap
    ensures forall k :: m <= k < |g.edges| ==> s.edges[k] == s0.edges[k]
    decreases m
  {
    if m == 0 then s0
    else
      var s := EdgePass(g, cfg, s0, m - 1);
      if s.failure.Some? then s else EdgeStep(cfg, s, m - 1, g.edges[m - 1])
  }

  /** Both loops. */
  function ImportSpec(g: GraphValue, cfg: ImportConfig): ImportState
    requires NodesListed(g)
  {
    var s := NodePass(g, cfg, |g.order|);
    if s.failure.Some? then s else EdgePass(g, cfg, s, |g.edges|)
  }

  // ---------------------------------------------------------------------------
  // Properties of the specification.

  /** An exception ends the node loop. */
  lemma {:induction false} NodePassSticky(g: GraphValue, cfg: ImportConfig, n: nat, m: nat)
    requires n <= m <= |g.order| && NodesListed(g)
    requires NodePass(g, cfg, n).failure.Some?
    ensures NodePass(g, cfg, m) == NodePass(g, cfg, n)
    decreases m
  {
    if m > n {
      NodePassSticky(g, cfg, n, m - 1);
    }
  }

  /** An exception ends the edge loop. */
  lemma {:induction false} EdgePassSticky(g: GraphValue, cfg: ImportConfig, s0: ImportState, n: nat, m: nat)
    requires n <= m <= |g.edges| && |s0.edges| == |g.edges|
    requires EdgePass(g, cfg, s0, n).failure.Some?
    ensures EdgePass(g, cfg, s0, m) == EdgePass(g, cfg, s0, n)
    decreases m
  {
    if m > n {
      EdgePassSticky(g, cfg, s0, n, m - 1);
    }
  }

  /** What the node loop has done to node number i: the route (collection and
      key) of that node gives its `_id`, which is recorded in nx_map and
      written into its dictionary. */
  ghost predicate NodeAssigned(g: GraphValue, cfg: ImportConfig, s: ImportState, i: nat)
    requires i < |g.order| && NodesListed(g)
  {
    var id := g.order[i];
    id in s.nxMap && id in s.data
    && var e := s.nxMap[id];
    NodeRoute(cfg, i, id, g.data[id]) == Ok((e.col, e.key))
    && e.adbId == MakeId(e.col, e.key)
    && s.data[id] == g.data[id]["_id" := PyStr(e.adbId)]
  }

  /** A node loop that ran through n nodes has assigned each of them. */
  lemma {:induction false} NodePassAssigns(g: GraphValue, cfg: ImportConfig, n: nat)
    requires WellFormed(g) && n <= |g.order|
    requires NodePass(g, cfg, n).failure.None?
    ensures forall i :: 0 <= i < n ==> NodeAssigned(g, cfg, NodePass(g, cfg, n), i)
    decreases n
  {
    if n > 0 {
      var prev := NodePass(g, cfg, n - 1);
      NodePassAssigns(g, cfg, n - 1);
      var s := NodePass(g, cfg, n);
      var id := g.order[n - 1];
      assert s.data == prev.data[id := s.data[id]] && s.nxMap == prev.nxMap[id := s.nxMap[id]];
      forall i | 0 <= i < n - 1
        ensures NodeAssigned(g, cfg, s, i)
      {
        assert NodeAssigned(g, cfg, prev, i);
        assert g.order[i] != id;
      }
    }
  }

  /** nx_map holds exactly the nodes the loop has gone through. */
  lemma {:induction false} NodePassMapKeys(g: GraphValue, cfg: ImportConfig, n: nat)
    requires NodesListed(g) && n <= |g.order|
    requires NodePass(g, cfg, n).failure.None?
    ensures forall id :: id in NodePass(g, cfg, n).nxMap <==> id in g.order[..n]
    decreases n
  {
    if n > 0 {
      NodePassMapKeys(g, cfg, n - 1);
      assert g.order[..n] == g.order[..n - 1] + [g.order[n - 1]];
    }
  }

  /** Node number i's document is the i-th routed, to the collection nx_map
      records for it. */
  lemma {:induction false} NodePassRoutes(g: GraphValue, cfg: ImportConfig, n: nat)
    requires WellFormed(g) && n <= |g.order|
    requires NodePass(g, cfg, n).failure.None?
    ensures var s := NodePass(g, cfg, n);
      |s.routed| == n
      && forall i :: 0 <= i < n ==> (g.order[i] in s.nxMap && g.order[i] in s.data
           && s.routed[i] == (s.nxMap[g.order[i]].col, s.data[g.order[i]]))
    decreases n
  {
    if n > 0 {
      var prev := NodePass(g, cfg, n - 1);
      NodePassRoutes(g, cfg, n - 1);
      var s := NodePass(g, cfg, n);
      var id := g.order[n - 1];
      assert prev.failure.None?;
      var route := NodeRoute(cfg, n - 1, id, g.data[id]);
      assert route.Ok?;
      assert s == AssignNode(prev, id, g.data[id], route.value.0, route.value.1);
      forall i | 0 <= i < n - 1
        ensures g.order[i] in s.nxMap && g.order[i] in s.data
        ensures s.routed[i] == (s.nxMap[g.order[i]].col, s.data[g.order[i]])
      {
        assert g.order[i] != id;
      }
    }
  }

  /** After a complete node loop every node, so every edge endpoint, is in
      nx_map. */
  lemma EndpointsMapped(g: GraphValue, cfg: ImportConfig, j: nat)
    requires WellFormed(g) && j < |g.edges|
    requires NodePass(g, cfg, |g.order|).failure.None?
    ensures g.edges[j].u in NodePass(g, cfg, |g.order|).nxMap
    ensures g.edges[j].v in NodePass(g, cfg, |g.order|).nxMap
    ensures g.edges[j].u in NodePass(g, cfg, |g.order|).data
    ensures g.edges[j].v in NodePass(g, cfg, |g.order|).data
  {
    NodePassDomain(g, cfg, |g.order|);
    NodePassMapKeys(g, cfg, |g.order|);
    assert g.order[..|g.order|] == g.order;
  }

  /** The node loop keeps every node's dictionary. */
  lemma {:induction false} NodePassDomain(g: GraphValue, cfg: ImportConfig, n: nat)
    requires NodesListed(g) && n <= |g.order|
    ensures forall id :: id in g.data ==> id in NodePass(g, cfg, n).data
    decreases n
  {
    if n > 0 {
      NodePassDomain(g, cfg, n - 1);
    }
  }

  /** What the edge loop has done to edge number j: it kept its endpoints,
      the route computed from its endpoints' contexts succeeded, `_id` is
      `col + "/" + key` of that route, and `_from` and `_to` are the `_id`s the
      node loop gave its endpoints; every other attribute is unchanged. */
  ghost predicate EdgeResolved(g: GraphValue, cfg: ImportConfig, s: ImportState, j: nat)
    requires j < |g.edges| && |s.edges| == |g.edges|
  {
    var Edge(u, v, e) := g.edges[j];
    var a := s.edges[j].attrs;
    u in s.nxMap && v in s.nxMap && u in s.data && v in s.data
    && s.edges[j].u == u && s.edges[j].v == v
    && EdgeRouteIn(cfg, s.nxMap, s.data, j, g.edges[j]).Ok?
    && var (col, key) := EdgeRouteIn(cfg, s.nxMap, s.data, j, g.edges[j]).value;
    a == e["_id" := PyStr(MakeId(col, key))]["_from" := PyStr(s.nxMap[u].adbId)]["_to" := PyStr(s.nxMap[v].adbId)]
  }

  /** A routed entry that is the document of edge number j sent to the
      collection of its route. */
  ghost predicate RoutedEdge(cfg: ImportConfig, nxMap: map<NxId, MapEntry>, data: map<NxId, Json>, j: nat,
                             edge: Edge, doc: Json, entry: (string, Json))
  {
    edge.u in nxMap && edge.u in data && edge.v in data
    && EdgeRouteIn(cfg, nxMap, data, j, edge).Ok?
    && entry == (EdgeRouteIn(cfg, nxMap, data, j, edge).value.0, doc)
  }

  /** One edge step that does not raise resolves its edge, routes its
      document to the route's collection, and leaves the other edges, the
      dictionaries and nx_map alone. */
  lemma EdgeStepResolves(g: GraphValue, cfg: ImportConfig, s: ImportState, j: nat)
    requires j < |g.edges| && |s.edges| == |g.edges| && s.edges[j] == g.edges[j]
    ensures var r := EdgeStep(cfg, s, j, g.edges[j]);
      r.nxMap == s.nxMap && r.data == s.data && |r.edges| == |s.edges|
      && (forall k :: 0 <= k < |s.edges| && k != j ==> r.edges[k] == s.edges[k])
      && (r.failure.None? ==>
            EdgeResolved(g, cfg, r, j)
            && |r.routed| == |s.routed| + 1 && r.routed[..|s.routed|] == s.routed
            && RoutedEdge(cfg, s.nxMap, s.data, j, g.edges[j], r.edges[j].attrs, r.routed[|s.routed|]))
  {
  }

  /** After a complete node loop, an edge loop that ran through m edges has
      resolved each of them. */
  lemma {:induction false} EdgePassResolves(g: GraphValue, cfg: ImportConfig, m: nat)
    requires WellFormed(g) && m <= |g.edges|
    requires NodePass(g, cfg, |g.order|).failure.None?
    requires EdgePass(g, cfg, NodePass(g, cfg, |g.order|), m).failure.None?
    ensures var sN := NodePass(g, cfg, |g.order|);
      forall j :: 0 <= j < m ==> EdgeResolved(g, cfg, EdgePass(g, cfg, sN, m), j)
    decreases m
  {
    var sN := NodePass(g, cfg, |g.order|);
    if m > 0 {
      var prev := EdgePass(g, cfg, sN, m - 1);
      assert prev.failure.None?;
      EdgePassResolves(g, cfg, m - 1);
      var s := EdgePass(g, cfg, sN, m);
      assert s == EdgeStep(cfg, prev, m - 1, g.edges[m - 1]);
      EdgeStepResolves(g, cfg, prev, m - 1);
      forall j | 0 <= j < m - 1
        ensures EdgeResolved(g, cfg, s, j)
      {
        assert EdgeResolved(g, cfg, prev, j);
        assert s.edges[j] == prev.edges[j];
      }
    }
  }

  /** An edge loop from s0 (after a complete node loop, the state whose
      routed documents are the node documents) that ran through m edges
      without raising has appended, for each edge j in turn, its document
      routed to the collection of its route. */
  lemma {:induction false} EdgePassRoutes(g: GraphValue, cfg: ImportConfig, s0: ImportState, m: nat)
    requires m <= |g.edges| && s0.edges == g.edges
    requires EdgePass(g, cfg, s0, m).failure.None?
    ensures var s := EdgePass(g, cfg, s0, m);
      |s.routed| == |s0.routed| + m && s.routed[..|s0.routed|] == s0.routed
      && forall j :: 0 <= j < m ==>
           RoutedEdge(cfg, s.nxMap, s.data, j, g.edges[j], s.edges[j].attrs, s.routed[|s0.routed| + j])
    decreases m
  {
    if m > 0 {
      var prev := EdgePass(g, cfg, s0, m - 1);
      assert prev.failure.None?;
      EdgePassRoutes(g, cfg, s0, m - 1);
      var s := EdgePass(g, cfg, s0, m);
      assert s == EdgeStep(cfg, prev, m - 1, g.edges[m - 1]);
      EdgeStepResolves(g, cfg, prev, m - 1);
      assert s.nxMap == prev.nxMap && s.data == prev.data;
      forall j | 0 <= j < m - 1
        ensures RoutedEdge(cfg, s.nxMap, s.data, j, g.edges[j], s.edges[j].attrs, s.routed[|s0.routed| + j])
      {
        assert s.routed[|s0.routed| + j] == prev.routed[|s0.routed| + j];
        assert s.edges[j] == prev.edges[j];
      }
    }
  }

  /** A node loop that did not raise has routed one document per node. */
  lemma {:induction false} NodePassRoutedCount(g: GraphValue, cfg: ImportConfig, n: nat)
    requires NodesListed(g) && n <= |g.order|
    requires NodePass(g, cfg, n).failure.None?
    ensures |NodePass(g, cfg, n).routed| == n
    decreases n
  {
    if n > 0 {
      NodePassRoutedCount(g, cfg, n - 1);
    }
  }

  /** With the collections fixed and the default keys, the edge loop after a
      complete node loop cannot fail. */
  lemma {:induction false} EdgePassSucceeds(g: GraphValue, cfg: ImportConfig, m: nat)
    requires WellFormed(g) && m <= |g.edges|
    requires Truthy(cfg.fixedE) && !cfg.keyifyEdges
    requires NodePass(g, cfg, |g.order|).failure.None?
    ensures EdgePass(g, cfg, NodePass(g, cfg, |g.order|), m).failure.None?
    decreases m
  {
    if m > 0 {
      EdgePassSucceeds(g, cfg, m - 1);
      EndpointsMapped(g, cfg, m - 1);
      EdgePassNextSucceeds(g, cfg, NodePass(g, cfg, |g.order|), m);
    }
  }

  /** With the edge collection fixed and the default keys, an edge loop that
      has not raised yet does not raise on an edge whose endpoints are both in
      nx_map. */
  lemma EdgePassNextSucceeds(g: GraphValue, cfg: ImportConfig, s0: ImportState, m: nat)
    requires 0 < m <= |g.edges| && |s0.edges| == |g.edges|
    requires Truthy(cfg.fixedE) && !cfg.keyifyEdges
    requires var Edge(u, v, _) := g.edges[m - 1];
      u in s0.nxMap && v in s0.nxMap && u in s0.data && v in s0.data
    requires EdgePass(g, cfg, s0, m - 1).failure.None?
    ensures EdgePass(g, cfg, s0, m).failure.None?
  {
  }

  /** With the collection fixed and the default keys, the node loop cannot
      fail either. */
  lemma {:induction false} NodePassSucceeds(g: GraphValue, cfg: ImportConfig, n: nat)
    requires NodesListed(g) && n <= |g.order|
    requires Truthy(cfg.fixedV) && !cfg.keyifyNodes
    ensures NodePass(g, cfg, n).failure.None?
    decreases n
  {
    if n > 0 {
      NodePassSucceeds(g, cfg, n - 1);
    }
  }

  /** A homogeneous graph imported with the default keys never raises. */
  lemma HomogeneousImportSucceeds(g: GraphValue, cfg: ImportConfig)
    requires WellFormed(g)
    requires Truthy(cfg.fixedV) && Truthy(cfg.fixedE) && !cfg.keyifyNodes && !cfg.keyifyEdges
    ensures ImportSpec(g, cfg).failure.None?
  {
    NodePassSucceeds(g, cfg, |g.order|);
    EdgePassSucceeds(g, cfg, |g.edges|);
  }

  /** The node loop depends on the configuration only through the routes it
      computes. */
  lemma {:induction false} NodePassSameRoutes(g: GraphValue, cfg1: ImportConfig, cfg2: ImportConfig, n: nat)
    requires NodesListed(g) && n <= |g.order|
    requires forall i :: 0 <= i < n ==>
      NodeRoute(cfg1, i, g.order[i], g.data[g.order[i]]) == NodeRoute(cfg2, i, g.order[i], g.data[g.order[i]])
    ensures NodePass(g, cfg1, n) == NodePass(g, cfg2, n)
    decreases n
  {
    if n > 0 {
      NodePassSameRoutes(g, cfg1, cfg2, n - 1);
      var s := NodePass(g, cfg1, n - 1);
      var i := n - 1;
      var id := g.order[i];
      assert NodeRoute(cfg1, i, id, g.data[id]) == NodeRoute(cfg2, i, id, g.data[id]);
      assert NodeStep(g, cfg1, s, i) == NodeStep(g, cfg2, s, i);
    }
  }

  /** With the collection fixed and the default keys, the controller is never
      consulted: any two controllers give the same node loop. */
  lemma NodePassIgnoresHooks(g: GraphValue, cfg: ImportConfig, hooks: Hooks, n: nat)
    requires NodesListed(g) && n <= |g.order|
    requires Truthy(cfg.fixedV) && !cfg.keyifyNodes
    ensures NodePass(g, cfg, n) == NodePass(g, cfg.(hooks := hooks), n)
  {
    forall i | 0 <= i < n
      ensures NodeRoute(cfg, i, g.order[i], g.data[g.order[i]])
        == NodeRoute(cfg.(hooks := hooks), i, g.order[i], g.data[g.order[i]])
    {
      NodeRouteDefault(cfg, i, g.order[i], g.data[g.order[i]]);
      NodeRouteDefault(cfg.(hooks := hooks), i, g.order[i], g.data[g.order[i]]);
    }
    NodePassSameRoutes(g, cfg, cfg.(hooks := hooks), n);
  }

  /** The same for the edge loop. */
  lemma {:induction false} EdgePassIgnoresHooks(g: GraphValue, cfg: ImportConfig, hooks: Hooks, s0: ImportState, m: nat)
    requires m <= |g.edges| && |s0.edges| == |g.edges|
    requires Truthy(cfg.fixedE) && !cfg.keyifyEdges
    ensures EdgePass(g, cfg, s0, m) == EdgePass(g, cfg.(hooks := hooks), s0, m)
    decreases m
  {
    if m > 0 {
      EdgePassIgnoresHooks(g, cfg, hooks, s0, m - 1);
      var s := EdgePass(g, cfg, s0, m - 1);
      var Edge(u, v, e) := g.edges[m - 1];
      if u in s.nxMap && u in s.data && v in s.data {
        var fromN := EdgeContext(u, s.nxMap[u].col, s.data[u]);
        var toN := EdgeContext(v, s.nxMap[u].col, s.data[v]);
        EdgeRouteDefault(cfg, m - 1, e, fromN, toN);
        EdgeRouteDefault(cfg.(hooks := hooks), m - 1, e, fromN, toN);
        assert EdgeRouteIn(cfg, s.nxMap, s.data, m - 1, g.edges[m - 1])
          == EdgeRouteIn(cfg.(hooks := hooks), s.nxMap, s.data, m - 1, g.edges[m - 1]);
      }
    }
  }

  /** A homogeneous graph imported with the default keys does not depend on
      the controller at all. */
  lemma HomogeneousIgnoresHooks(g: GraphValue, cfg: ImportConfig, hooks: Hooks)
    requires NodesListed(g)
    requires Truthy(cfg.fixedV) && Truthy(cfg.fixedE) && !cfg.keyifyNodes && !cfg.keyifyEdges
    ensures ImportSpec(g, cfg) == ImportSpec(g, cfg.(hooks := hooks))
  {
    NodePassIgnoresHooks(g, cfg, hooks, |g.order|);
    EdgePassIgnoresHooks(g, cfg, hooks, NodePass(g, cfg, |g.order|), |g.edges|);
  }

  /** A default key is digits only. */
  lemma KeyNoSeparator(i: nat)
    ensures '/' !in IntToStr(i)
  {
    assert forall c :: c in NatToDecimal(i) ==> IsDigit(c);
  }

  /** With a fixed collection name without "/" and the default keys, node
      number i gets the `_id` `col + "/" + str(i)`, so distinct nodes get
      distinct `_id`s. */
  lemma DefaultNodeIdsDistinct(g: GraphValue, cfg: ImportConfig, i: nat, k: nat)
    requires WellFormed(g) && i < k < |g.order|
    requires Truthy(cfg.fixedV) && '/' !in cfg.fixedV.value && !cfg.keyifyNodes
    ensures var s := NodePass(g, cfg, |g.order|);
      s.failure.None? && g.order[i] in s.nxMap && g.order[k] in s.nxMap
      && s.nxMap[g.order[i]].adbId == MakeId(cfg.fixedV.value, IntToStr(i))
      && s.nxMap[g.order[i]].adbId != s.nxMap[g.order[k]].adbId
  {
    NodePassSucceeds(g, cfg, |g.order|);
    NodePassAssigns(g, cfg, |g.order|);
    var s := NodePass(g, cfg, |g.order|);
    assert NodeAssigned(g, cfg, s, i) && NodeAssigned(g, cfg, s, k);
    NodeRouteDefault(cfg, i, g.order[i], g.data[g.order[i]]);
    NodeRouteDefault(cfg, k, g.order[k], g.data[g.order[k]]);
    var col := cfg.fixedV.value;
    KeyNoSeparator(i);
    KeyNoSeparator(k);
    IdRoundTrip(col, IntToStr(i));
    IdRoundTrip(col, IntToStr(k));
    NatToDecimalInjective(i, k);
  }

  /** With the edge collection fixed and the default keys, an edge loop from
      s0 that did not raise gave edge number j the `_id` `col + "/" + str(j)`
      and routed its document to that collection. */
  lemma {:induction false} DefaultEdgePass(g: GraphValue, cfg: ImportConfig, s0: ImportState, m: nat)
    requires m <= |g.edges| && s0.edges == g.edges
    requires Truthy(cfg.fixedE) && !cfg.keyifyEdges
    requires EdgePass(g, cfg, s0, m).failure.None?
    ensures var s := EdgePass(g, cfg, s0, m);
      |s.routed| == |s0.routed| + m
      && forall j :: 0 <= j < m ==>
           "_id" in s.edges[j].attrs && s.edges[j].attrs["_id"] == PyStr(MakeId(cfg.fixedE.value, IntToStr(j)))
           && s.routed[|s0.routed| + j].0 == cfg.fixedE.value
    decreases m
  {
    if m > 0 {
      var prev := EdgePass(g, cfg, s0, m - 1);
      assert prev.failure.None?;
      DefaultEdgePass(g, cfg, s0, m - 1);
      var s := EdgePass(g, cfg, s0, m);
      assert s == EdgeStep(cfg, prev, m - 1, g.edges[m - 1]);
      EdgeStepResolves(g, cfg, prev, m - 1);
      var Edge(u, v, e) := g.edges[m - 1];
      EdgeRouteDefault(cfg, m - 1, e, EdgeContext(u, prev.nxMap[u].col, prev.data[u]),
        EdgeContext(v, prev.nxMap[u].col, prev.data[v]));
      forall j | 0 <= j < m - 1
        ensures "_id" in s.edges[j].attrs && s.edges[j].attrs["_id"] == PyStr(MakeId(cfg.fixedE.value, IntToStr(j)))
        ensures s.routed[|s0.routed| + j].0 == cfg.fixedE.value
      {
        assert s.routed[|s0.routed| + j] == prev.routed[|s0.routed| + j];
        assert s.edges[j] == prev.edges[j];
      }
    }
  }

  /** With a "/"-free fixed edge collection and the default keys, an edge
      loop that did not raise (after a complete node loop of a homogeneous
      import it never does, `HomogeneousImportSucceeds`) gives distinct edges
      distinct `_id`s and sends every edge document to that collection. */
  lemma DefaultEdgeIdsDistinct(g: GraphValue, cfg: ImportConfig, s0: ImportState, i: nat, k: nat)
    requires i < k < |g.edges| && s0.edges == g.edges
    requires Truthy(cfg.fixedE) && '/' !in cfg.fixedE.value && !cfg.keyifyEdges
    requires EdgePass(g, cfg, s0, |g.edges|).failure.None?
    ensures var s := EdgePass(g, cfg, s0, |g.edges|);
      |s.routed| == |s0.routed| + |g.edges|
      && "_id" in s.edges[i].attrs && "_id" in s.edges[k].attrs
      && s.edges[i].attrs["_id"] == PyStr(MakeId(cfg.fixedE.value, IntToStr(i)))
      && s.routed[|s0.routed| + i].0 == cfg.fixedE.value
      && s.edges[i].attrs["_id"] != s.edges[k].attrs["_id"]
  {
    DefaultEdgePass(g, cfg, s0, |g.edges|);
    var col := cfg.fixedE.value;
    KeyNoSeparator(i);
    KeyNoSeparator(k);
    IdRoundTrip(col, IntToStr(i));
    IdRoundTrip(col, IntToStr(k));
    NatToDecimalInjective(i, k);
  }

  /** The node loop leaves the dictionaries of the nodes it has not reached
      alone. */
  lemma {:induction false} NodePassUntouched(g: GraphValue, cfg: ImportConfig, n: nat)
    requires WellFormed(g) && n <= |g.order|
    ensures forall k :: n <= k < |g.order| ==>
      g.order[k] in NodePass(g, cfg, n).data && NodePass(g, cfg, n).data[g.order[k]] == g.data[g.order[k]]
    decreases n
  {
    if n > 0 {
      NodePassUntouched(g, cfg, n - 1);
      forall k | n <= k < |g.order|
        ensures g.order[k] in NodePass(g, cfg, n).data
        ensures NodePass(g, cfg, n).data[g.order[k]] == g.data[g.order[k]]
      {
        assert g.order[k] != g.order[n - 1];
      }
    }
  }

  /** The loop that validates the edge definitions stops at the first one
      lacking a key, and that is the error the whole validation reports. */
  lemma {:induction false} FirstInvalidEdgeDefinition(eds: seq<EdgeDefinition>, i: nat)
    requires i < |eds| && forall k :: 0 <= k < i ==> EdgeDefinitionAtribs <= eds[k].fields
    requires !(EdgeDefinitionAtribs <= eds[i].fields)
    ensures ValidateEdgeDefinitions(eds) == ValidateAttributes("Edge Definitions", eds[i].fields, EdgeDefinitionAtribs)
    decreases i
  {
    if i > 0 {
      assert EdgeDefinitionAtribs <= eds[0].fields;
      assert eds[1..][i - 1] == eds[i];
      assert forall k :: 0 <= k < i - 1 ==> eds[1..][k] == eds[k + 1];
      FirstInvalidEdgeDefinition(eds[1..], i - 1);
    }
  }

  // ---------------------------------------------------------------------------
  // The adapter.

  /** The loop that validates every edge definition, raising at the first
      invalid one. */
  method CheckEdgeDefinitions(eds: seq<EdgeDefinition>) returns (r: Outcome)
    ensures r == ValidateEdgeDefinitions(eds)
  {
    for i := 0 to |eds|
      invariant forall k :: 0 <= k < i ==> EdgeDefinitionAtribs <= eds[k].fields
    {
      var check := ValidateAttributes("Edge Definitions", eds[i].fields, EdgeDefinitionAtribs);
      if check.Fail? {
        FirstInvalidEdgeDefinition(eds, i);
        return check;
      }
    }
    return Pass;
  }

  /** The loop over the edge definitions that collects `adb_e_cols` and
      `adb_v_cols`. */
  method CollectCollections(eds: seq<EdgeDefinition>) returns (vCols: set<string>, eCols: set<string>)
    ensures vCols == VertexCollections(eds) && eCols == EdgeCollections(eds)
  {
    vCols, eCols := {}, {};
    for i := 0 to |eds|
      invariant vCols == VertexCollections(eds[..i]) && eCols == EdgeCollections(eds[..i])
    {
      eCols := eCols + {Str(eds[i].edgeCollection)};
      var vs := eds[i].fromVertexCollections + eds[i].toVertexCollections;
      for k := 0 to |vs|
        invariant vCols == VertexCollections(eds[..i]) + set c | c in vs[..k]
      {
        assert vs[..k + 1] == vs[..k] + [vs[k]];
        vCols := vCols + {vs[k]};
      }
      assert vs[..|vs|] == vs;
      assert eds[..i + 1][..i] == eds[..i];
    }
    assert eds[..|eds|] == eds;
  }

  /** One iteration of the node loop, on node number i. */
  method ImportNode(g: NxGraph, cfg: ImportConfig, buf: DocumentBuffers, batchSize: int, i: nat,
                    nxMap: map<NxId, MapEntry>, ghost routed: seq<(string, Json)>, ghost g0: GraphValue, ghost log0: seq<Flush>)
    returns (nxMap': map<NxId, MapEntry>, failure: Option<Error>, ghost routed': seq<(string, Json)>)
    requires WellFormed(g0) && i < |g0.order| && g.order == g0.order
    requires NodePass(g0, cfg, i) == ImportState(g.data, g.edges, nxMap, routed, None)
    requires buf.Valid() && Accounted(log0, buf.db.flushes, buf.buffers, routed)
    modifies g, buf, buf.db
    ensures g.order == old(g.order)
    ensures NodePass(g0, cfg, i + 1) == ImportState(g.data, g.edges, nxMap', routed', failure)
    ensures buf.Valid() && Accounted(log0, buf.db.flushes, buf.buffers, routed')
  {
    var id := g.order[i];
    NodePassUntouched(g0, cfg, i);
    var node := g.data[id];
    assert node == g0.data[id];
    ghost var prev := NodePass(g0, cfg, i);
    var route := NodeRoute(cfg, i, id, node);
    if route.Err? {
      nxMap', failure, routed' := nxMap, Some(route.error), routed;
    } else {
      var (col, key) := route.value;
      assert NodePass(g0, cfg, i + 1) == AssignNode(prev, id, node, col, key);
      var adbId := MakeId(col, key);
      var doc := node["_id" := PyStr(adbId)];
      g.data := g.data[id := doc];
      nxMap', failure := nxMap[id := MapEntry(adbId, col, key)], None;
      InsertKeepsAccounted(log0, buf.db.flushes, buf.buffers, routed, col, doc, batchSize);
      buf.InsertAdbDocs(col, doc, batchSize);
      routed' := routed + [(col, doc)];
    }
  }

  /** The node loop of `networkx_to_arangodb`: route and key every node, write
      its `_id`, record it in nx_map and buffer it, until an exception. */
  method ImportNodes(g: NxGraph, cfg: ImportConfig, buf: DocumentBuffers, batchSize: int, ghost log0: seq<Flush>)
    returns (nxMap: map<NxId, MapEntry>, failure: Option<Error>, ghost routed: seq<(string, Json)>)
    requires g.Valid() && buf.Valid() && Accounted(log0, buf.db.flushes, buf.buffers, [])
    modifies g, buf, buf.db
    ensures g.order == old(g.order) && g.edges == old(g.edges)
    ensures NodePass(old(g.Value()), cfg, |g.order|) == ImportState(g.data, g.edges, nxMap, routed, failure)
    ensures buf.Valid() && Accounted(log0, buf.db.flushes, buf.buffers, routed)
  {
    ghost var g0 := g.Value();
    nxMap, failure, routed := map[], None, [];
    var i := 0;
    while i < |g.order| && failure.None?
      invariant i <= |g0.order| && g.order == g0.order && g.edges == g0.edges
      invariant NodePass(g0, cfg, i) == ImportState(g.data, g.edges, nxMap, routed, failure)
      invariant buf.Valid() && Accounted(log0, buf.db.flushes, buf.buffers, routed)
    {
      nxMap, failure, routed := ImportNode(g, cfg, buf, batchSize, i, nxMap, routed, g0, log0);
      i := i + 1;
    }
    if failure.Some? {
      NodePassSticky(g0, cfg, i, |g0.order|);
    }
  }

  /** One iteration of the edge loop, on edge number j. */
  method ImportEdge(g: NxGraph, cfg: ImportConfig, buf: DocumentBuffers, batchSize: int, j: nat,
                    nxMap: map<NxId, MapEntry>, ghost routed: seq<(string, Json)>,
                    ghost g0: GraphValue, ghost s0: ImportState, ghost log0: seq<Flush>)
    returns (failure: Option<Error>, ghost routed': seq<(string, Json)>)
    requires j < |g0.edges| && |s0.edges| == |g0.edges| && s0.edges[j] == g0.edges[j]
    requires EdgePass(g0, cfg, s0, j) == ImportState(g.data, g.edges, nxMap, routed, None)
    requires buf.Valid() && Accounted(log0, buf.db.flushes, buf.buffers, routed)
    modifies g, buf, buf.db
    ensures g.order == old(g.order)
    ensures EdgePass(g0, cfg, s0, j + 1) == ImportState(g.data, g.edges, nxMap, routed', failure)
    ensures buf.Valid() && Accounted(log0, buf.db.flushes, buf.buffers, routed')
  {
    ghost var prev := EdgePass(g0, cfg, s0, j);
    assert EdgePass(g0, cfg, s0, j + 1) == EdgeStep(cfg, prev, j, g0.edges[j]);
    var Edge(u, v, e) := g.edges[j];
    failure, routed' := None, routed;
    if u !in nxMap {
      failure := Some(KeyError(u));
    } else if u !in g.data {
      failure := Some(KeyError(u));
    } else if v !in g.data {
      failure := Some(KeyError(v));
    } else {
      var route := EdgeRouteIn(cfg, nxMap, g.data, j, g.edges[j]);
      if route.Err? {
        failure := Some(route.error);
      } else {
        var (col, key) := route.value;
        var doc := e["_id" := PyStr(MakeId(col, key))]["_from" := PyStr(nxMap[u].adbId)];
        if v !in nxMap {
          g.edges := g.edges[j := Edge(u, v, doc)];
          failure := Some(KeyError(v));
        } else {
          doc := doc["_to" := PyStr(nxMap[v].adbId)];
          g.edges := g.edges[j := Edge(u, v, doc)];
          InsertKeepsAccounted(log0, buf.db.flushes, buf.buffers, routed, col, doc, batchSize);
          buf.InsertAdbDocs(col, doc, batchSize);
          routed' := routed + [(col, doc)];
        }
      }
    }
  }

  /** The edge loop of `networkx_to_arangodb`: route and key every edge, write
      its `_id`, `_from` and `_to`, and buffer it, until an exception. */
  method ImportEdges(g: NxGraph, cfg: ImportConfig, buf: DocumentBuffers, batchSize: int,
                     nxMap: map<NxId, MapEntry>, ghost g0: GraphValue, ghost sN: ImportState, ghost log0: seq<Flush>)
    returns (failure: Option<Error>, ghost routed: seq<(string, Json)>)
    requires sN.edges == g0.edges
    requires sN == ImportState(g.data, g.edges, nxMap, sN.routed, None)
    requires buf.Valid() && Accounted(log0, buf.db.flushes, buf.buffers, sN.routed)
    modifies g, buf, buf.db
    ensures g.order == old(g.order)
    ensures EdgePass(g0, cfg, sN, |g0.edges|) == ImportState(g.data, g.edges, nxMap, routed, failure)
    ensures buf.Valid() && Accounted(log0, buf.db.flushes, buf.buffers, routed)
  {
    failure, routed := None, sN.routed;
    var j := 0;
    while j < |g.edges| && failure.None?
      invariant j <= |g0.edges| == |g.edges| && g.order == old(g.order)
      invariant EdgePass(g0, cfg, sN, j) == ImportState(g.data, g.edges, nxMap, routed, failure)
      invariant buf.Valid() && Accounted(log0, buf.db.flushes, buf.buffers, routed)
    {
      failure, routed := ImportEdge(g, cfg, buf, batchSize, j, nxMap, routed, g0, sN, log0);
      j := j + 1;
    }
    if failure.Some? {
      EdgePassSticky(g0, cfg, sN, j, |g0.edges|);
    } else {
      assert j == |g0.edges|;
    }
  }

  /** Both loops and the final flush of every buffer, on a fresh set of
      buffers: the graph ends as `ImportSpec` says, and the database has
      received a prefix of the routed documents, all of them when nothing
      raised. */
  method RunImport(g: NxGraph, cfg: ImportConfig, db: Database, batchSize: int)
    returns (failure: Option<Error>, ghost routed: seq<(string, Json)>)
    requires g.Valid()
    modifies g, db
    ensures var s := ImportSpec(old(g.Value()), cfg);
      g.order == old(g.order) && g.data == s.data && g.edges == s.edges
      && failure == s.failure && routed == s.routed
    ensures failure.None? ==> forall c :: Sent(db.flushes, c) == Sent(old(db.flushes), c) + DocsFor(routed, c)
    ensures forall c :: Sent(db.flushes, c) <= Sent(old(db.flushes), c) + DocsFor(routed, c)
  {
    ghost var g0 := g.Value();
    ghost var log0 := db.flushes;
    var buf := new DocumentBuffers(db);
    var nxMap;
    nxMap, failure, routed := ImportNodes(g, cfg, buf, batchSize, log0);
    if failure.None? {
      failure, routed := ImportEdges(g, cfg, buf, batchSize, nxMap, g0, NodePass(g0, cfg, |g0.order|), log0);
    }
    ghost var log1 := db.flushes;
    if failure.None? {
      buf.FlushRemaining();
      FinalFlushesComplete(log0, log1, buf.order, buf.buffers, routed);
    } else {
      forall c
        ensures Sent(db.flushes, c) <= Sent(log0, c) + DocsFor(routed, c)
      {
        AccountedPrefix(log0, db.flushes, buf.buffers, routed, c);
      }
    }
  }
}
