/**
 * The earlier adapter (adbnx_adapter/adbnx_adapter/adbnx_adapter.py). It differs
 * from the current one in four ways: the identity maps live on the controller
 * object and outlive a call; the import works on a copy of the caller's graph;
 * every node is routed and keyed by the controller (there is no homogeneous
 * shortcut and no `str(i)` key), and an edge gets an `_id` only when
 * keyify_edges is set; endpoints are looked up with `adb_map.get(x)["_id"]`,
 * which raises TypeError for an unmapped x.
 */
module LegacyAdapter {
  import opened PyValues
  import opened AdbIds
  import opened ControllerHooks
  import opened Validation
  import opened Store
  import opened NxGraphs
  import opened Export
  import opened Import
  import BaseController

  /** The controller object with its two maps: `adb_map` (NetworkX id to
      `{"_id", "collection", "key"}`) and `nx_map` (ArangoDB id to
      `{"_id": nx_id, "collection"}`). */
  class LegacyController {
    const hooks: Hooks
    var adbMap: map<NxId, MapEntry>
    var nxMap: map<PyValue, AdbMapEntry>

    constructor (hooks: Hooks)
      ensures this.hooks == hooks && adbMap == map[] && nxMap == map[]
    {
      this.hooks := hooks;
      adbMap := map[];
      nxMap := map[];
    }
  }

  /** The state of an import run: the copied graph's dictionaries, the
      controller's `adb_map`, the routed documents and the exception, if any. */
  datatype LegacyState = LegacyState(
    data: map<NxId, Json>,
    edges: seq<Edge>,
    adbMap: map<NxId, MapEntry>,
    routed: seq<(string, Json)>,
    failure: Option<Error>)

  /** The collection and the key the controller gives node id. */
  function LegacyNodeRoute(hooks: Hooks, id: NxId, node: Json): Result<(string, string)> {
    var col :- hooks.identifyNode(id, node);
    var key :- hooks.keyifyNode(id, node, col);
    Ok((col, key))
  }

  /** One iteration of the node loop, on node id with dictionary node:
      `node["_id"] = col + "/" + key`, then `__insert_adb_vertex` records it in
      `adb_map` and buffers it. */
  function LegacyNodeStep(hooks: Hooks, s: LegacyState, id: NxId, node: Json): LegacyState {
    match LegacyNodeRoute(hooks, id, node)
    case Err(e) => s.(failure := Some(e))
    case Ok(route) => LegacyAssign(s, id, node, route.0, route.1)
  }

  /** Node id goes to collection col under key: its `_id` is written into its
      dictionary and recorded in `adb_map`, and the document is buffered. */
  function LegacyAssign(s: LegacyState, id: NxId, node: Json, col: string, key: string): LegacyState {
    var adbId := MakeId(col, key);
    var doc := node["_id" := PyStr(adbId)];
    s.(data := s.data[id := doc],
       adbMap := s.adbMap[id := MapEntry(adbId, col, key)],
       routed := s.routed + [(col, doc)])
  }

  /** The first n iterations of the node loop, starting from the controller's
      `adb_map` m0. */
  function LegacyNodePass(hooks: Hooks, g: GraphValue, m0: map<NxId, MapEntry>, n: nat): (s: LegacyState)
    requires n <= |g.order| && NodesListed(g)
    decreases n
  {
    if n == 0 then LegacyState(g.data, g.edges, m0, [], None)
    else
      var s := LegacyNodePass(hooks, g, m0, n - 1);
      if s.failure.Some? then s else LegacyNodeStep(hooks, s, g.order[n - 1], g.data[g.order[n - 1]])
  }

  /** `{"id": node_id, **nx_graph.nodes[node_id]}`: the node's dictionary
      with "id" added, unless it has an "id" attribute of its own, which
      wins over the node id. */
  function NodeContext(id: NxId, node: Json): (ctx: Json)
    ensures "id" in ctx && ctx["id"] == (if "id" in node then node["id"] else id)
  {
    if "id" in node then node else node["id" := id]
  }

  /** The node context is the dictionary merge the adapter writes. */
  lemma NodeContextIsMerge(id: NxId, node: Json)
    ensures NodeContext(id, node) == map["id" := id] + node
  {
  }

  /** The edge as the key step leaves it: with keyify_edges, `edge["_id"] =
      col + "/" + key`; otherwise untouched. */
  function KeyedEdge(hooks: Hooks, keyifyEdges: bool, e: Json, fromN: Json, toN: Json, col: string): Result<Json> {
    if keyifyEdges then
      var key :- hooks.keyifyEdge(e, fromN, toN, col);
      Ok(e["_id" := PyStr(MakeId(col, key))])
    else Ok(e)
  }

  /** The state of the edge loop: the copy's edges, the routed documents and
      the exception, if any. The node dictionaries and `adb_map` no longer
      change by then. */
  datatype EdgeLoopState = EdgeLoopState(edges: seq<Edge>, routed: seq<(string, Json)>, failure: Option<Error>)

  /** What one iteration of the edge loop does: raise before writing
      anything, write the edge back and then raise, or write it back and
      buffer it for a collection. */
  datatype EdgeEffect = Raise(error: Error) | WriteRaise(written: Edge, error: Error) | Send(written: Edge, col: string)

  /** One iteration of the edge loop on edge (u, v, e), over the node
      dictionaries data: identify, maybe keyify, then `__insert_adb_edge`
      reads `_from` and `_to` from `adb_map` at the "id" of the two endpoint
      contexts. Neither data nor `adb_map` changes during the edge loop, so
      what happens to an edge depends on nothing the loop did before. */
  function LegacyEdgeEffect(hooks: Hooks, keyifyEdges: bool, data: map<NxId, Json>, adbMap: map<NxId, MapEntry>, edge: Edge): EdgeEffect {
    var Edge(u, v, e) := edge;
    if u !in data then Raise(KeyError(u))
    else if v !in data then Raise(KeyError(v))
    else
      var fromN := NodeContext(u, data[u]);
      var toN := NodeContext(v, data[v]);
      match LegacyEdgeRoute(hooks, keyifyEdges, e, fromN, toN)
      case Err(err) => Raise(err)
      case Ok(route) =>
        var (doc, failure) := Linked(adbMap, fromN["id"], toN["id"], route.1);
        if failure.Some? then WriteRaise(Edge(u, v, doc), failure.value) else Send(Edge(u, v, doc), route.0)
  }

  /** The collection of an edge and the edge as the key step leaves it. */
  function LegacyEdgeRoute(hooks: Hooks, keyifyEdges: bool, e: Json, fromN: Json, toN: Json): Result<(string, Json)> {
    var col :- hooks.identifyEdge(e, fromN, toN);
    var e1 :- KeyedEdge(hooks, keyifyEdges, e, fromN, toN, col);
    Ok((col, e1))
  }

  /** `edge["_from"] = adb_map.get(x)["_id"]`, then `edge["_to"] =
      adb_map.get(y)["_id"]`: each lookup that misses raises TypeError, and
      the dictionary keeps what was written before. */
  function Linked(adbMap: map<NxId, MapEntry>, x: NxId, y: NxId, e: Json): (r: (Json, Option<Error>))
    ensures r.1 == (if x in adbMap && y in adbMap then None else Some(TypeError))
    ensures x in adbMap ==> "_from" in r.0 && r.0["_from"] == PyStr(adbMap[x].adbId)
    ensures x in adbMap && y in adbMap ==> "_to" in r.0 && r.0["_to"] == PyStr(adbMap[y].adbId)
  {
    if x !in adbMap then (e, Some(TypeError))
    else
      var withFrom := e["_from" := PyStr(adbMap[x].adbId)];
      if y !in adbMap then (withFrom, Some(TypeError))
      else (withFrom["_to" := PyStr(adbMap[y].adbId)], None)
  }

  /** What the edge loop would do to each of the given edges. */
  function LegacyEdgeEffects(hooks: Hooks, keyifyEdges: bool, data: map<NxId, Json>, adbMap: map<NxId, MapEntry>, edges: seq<Edge>): seq<EdgeEffect> {
    seq(|edges|, j requires 0 <= j < |edges| => LegacyEdgeEffect(hooks, keyifyEdges, data, adbMap, edges[j]))
  }

  /** Iteration number j carries out effect on state s. */
  function LegacyApply(s: EdgeLoopState, j: nat, effect: EdgeEffect): (r: EdgeLoopState)
    requires j < |s.edges|
    ensures |r.edges| == |s.edges| && forall k :: 0 <= k < |s.edges| && k != j ==> r.edges[k] == s.edges[k]
  {
    match effect
    case Raise(err) => s.(failure := Some(err))
    case WriteRaise(edge, err) => s.(edges := s.edges[j := edge], failure := Some(err))
    case Send(edge, col) => s.(edges := s.edges[j := edge], routed := s.routed + [(col, edge.attrs)])
  }

  /** The first m iterations of the edge loop from state s0, iteration j
      carrying out effects[j]. */
  function LegacyEdgePass(effects: seq<EdgeEffect>, s0: EdgeLoopState, m: nat): (s: EdgeLoopState)
    requires m <= |effects| && m <= |s0.edges|
    ensures |s.edges| == |s0.edges| && forall k :: m <= k < |s0.edges| ==> s.edges[k] == s0.edges[k]
    decreases m
  {
    if m == 0 then s0
    else
      var s := LegacyEdgePass(effects, s0, m - 1);
      if s.failure.Some? then s else LegacyApply(s, m - 1, effects[m - 1])
  }

  /** The edge loop that follows a node loop ending in state s. */
  function LegacyEdgeLoop(hooks: Hooks, keyifyEdges: bool, s: LegacyState): EdgeLoopState {
    LegacyEdgePass(LegacyEdgeEffects(hooks, keyifyEdges, s.data, s.adbMap, s.edges), EdgeLoopState(s.edges, s.routed, None), |s.edges|)
  }

  /** Both loops, on the copy of g, from the controller's `adb_map` m0. */
  function LegacyImportSpec(hooks: Hooks, keyifyEdges: bool, g: GraphValue, m0: map<NxId, MapEntry>): LegacyState
    requires NodesListed(g)
  {
    var s := LegacyNodePass(hooks, g, m0, |g.order|);
    if s.failure.Some? then s
    else
      var e := LegacyEdgeLoop(hooks, keyifyEdges, s);
      s.(edges := e.edges, routed := e.routed, failure := e.failure)
  }

  // ---------------------------------------------------------------------------
  // Properties of the specification.

  lemma {:induction false} LegacyNodePassSticky(hooks: Hooks, g: GraphValue, m0: map<NxId, MapEntry>, n: nat, m: nat)
    requires n <= m <= |g.order| && NodesListed(g)
    requires LegacyNodePass(hooks, g, m0, n).failure.Some?
    ensures LegacyNodePass(hooks, g, m0, m) == LegacyNodePass(hooks, g, m0, n)
    decreases m
  {
    if m > n {
      LegacyNodePassSticky(hooks, g, m0, n, m - 1);
      LegacyNodePassNext(hooks, g, m0, m - 1);
    }
  }

  lemma {:induction false} LegacyEdgePassSticky(effects: seq<EdgeEffect>, s0: EdgeLoopState, n: nat, m: nat)
    requires n <= m <= |effects| && m <= |s0.edges|
    requires LegacyEdgePass(effects, s0, n).failure.Some?
    ensures LegacyEdgePass(effects, s0, m) == LegacyEdgePass(effects, s0, n)
    decreases m
  {
    if m > n {
      LegacyEdgePassSticky(effects, s0, n, m - 1);
    }
  }

  /** One more iteration of the edge loop. */
  lemma LegacyEdgePassNext(effects: seq<EdgeEffect>, s0: EdgeLoopState, j: nat)
    requires j < |effects| && j < |s0.edges|
    ensures var s := LegacyEdgePass(effects, s0, j);
      s.edges[j] == s0.edges[j]
      && LegacyEdgePass(effects, s0, j + 1) == if s.failure.Some? then s else LegacyApply(s, j, effects[j])
  {
  }

  /** One more iteration of the node loop. */
  lemma LegacyNodePassNext(hooks: Hooks, g: GraphValue, m0: map<NxId, MapEntry>, i: nat)
    requires NodesListed(g) && i < |g.order|
    ensures var s := LegacyNodePass(hooks, g, m0, i);
      LegacyNodePass(hooks, g, m0, i + 1) == if s.failure.Some? then s else LegacyNodeStep(hooks, s, g.order[i], g.data[g.order[i]])
  {
  }

  /** The node loop leaves the dictionaries of the nodes it has not reached
      alone. */
  lemma {:induction false} LegacyNodePassUntouched(hooks: Hooks, g: GraphValue, m0: map<NxId, MapEntry>, n: nat)
    requires WellFormed(g) && n <= |g.order|
    ensures forall k :: n <= k < |g.order| ==>
      g.order[k] in LegacyNodePass(hooks, g, m0, n).data && LegacyNodePass(hooks, g, m0, n).data[g.order[k]] == g.data[g.order[k]]
    decreases n
  {
    if n > 0 {
      LegacyNodePassUntouched(hooks, g, m0, n - 1);
      forall k | n <= k < |g.order|
        ensures g.order[k] in LegacyNodePass(hooks, g, m0, n).data
        ensures LegacyNodePass(hooks, g, m0, n).data[g.order[k]] == g.data[g.order[k]]
      {
        assert g.order[k] != g.order[n - 1];
      }
    }
  }

  /** What the node loop has done to node number i: the controller's collection
      and key give its `_id`, which `adb_map` records with them and which is
      written into the node's dictionary. */
  ghost predicate LegacyNodeAssigned(hooks: Hooks, g: GraphValue, s: LegacyState, i: nat)
    requires i < |g.order| && NodesListed(g)
  {
    var id := g.order[i];
    id in s.adbMap && id in s.data
    && var e := s.adbMap[id];
    LegacyNodeRoute(hooks, id, g.data[id]) == Ok((e.col, e.key))
    && e.adbId == MakeId(e.col, e.key)
    && s.data[id] == g.data[id]["_id" := PyStr(e.adbId)]
  }

  /** A node loop that ran through n nodes without raising has assigned each
      of them, and its `adb_map` holds what the controller held before plus
      exactly those nodes. */
  lemma {:induction false} LegacyNodePassAssigns(hooks: Hooks, g: GraphValue, m0: map<NxId, MapEntry>, n: nat)
    requires WellFormed(g) && n <= |g.order|
    requires LegacyNodePass(hooks, g, m0, n).failure.None?
    ensures forall i :: 0 <= i < n ==> LegacyNodeAssigned(hooks, g, LegacyNodePass(hooks, g, m0, n), i)
    ensures LegacyNodePass(hooks, g, m0, n).adbMap.Keys == m0.Keys + set k | 0 <= k < n :: g.order[k]
    decreases n
  {
    if n > 0 {
      var prev := LegacyNodePass(hooks, g, m0, n - 1);
      LegacyNodePassAssigns(hooks, g, m0, n - 1);
      var s := LegacyNodePass(hooks, g, m0, n);
      var id := g.order[n - 1];
      assert s.data == prev.data[id := s.data[id]] && s.adbMap == prev.adbMap[id := s.adbMap[id]];
      forall i | 0 <= i < n - 1
        ensures LegacyNodeAssigned(hooks, g, s, i)
      {
        assert LegacyNodeAssigned(hooks, g, prev, i);
        assert g.order[i] != id;
      }
      assert (set k | 0 <= k < n :: g.order[k]) == (set k | 0 <= k < n - 1 :: g.order[k]) + {id};
    }
  }

  /** Node number i's document is the i-th routed, to the collection `adb_map`
      records for it. */
  lemma {:induction false} LegacyNodePassRoutes(hooks: Hooks, g: GraphValue, m0: map<NxId, MapEntry>, n: nat)
    requires WellFormed(g) && n <= |g.order|
    requires LegacyNodePass(hooks, g, m0, n).failure.None?
    ensures var s := LegacyNodePass(hooks, g, m0, n);
      |s.routed| == n
      && forall i :: 0 <= i < n ==> (g.order[i] in s.adbMap && g.order[i] in s.data
           && s.routed[i] == (s.adbMap[g.order[i]].col, s.data[g.order[i]]))
    decreases n
  {
    if n > 0 {
      LegacyNodePassRoutes(hooks, g, m0, n - 1);
      var s := LegacyNodePass(hooks, g, m0, n);
      var id := g.order[n - 1];
      forall i | 0 <= i < n - 1
        ensures g.order[i] in s.adbMap && g.order[i] in s.data
        ensures s.routed[i] == (s.adbMap[g.order[i]].col, s.data[g.order[i]])
      {
        assert g.order[i] != id;
      }
    }
  }

  /** No node dictionary has an attribute "id" (which would hide the node id
      from `__insert_adb_edge`). */
  ghost predicate NoIdAttribute(g: GraphValue) {
    forall id :: id in g.data ==> "id" !in g.data[id]
  }

  /** What the edge loop has done to edge number j: its endpoints are kept,
      `_from` and `_to` are the `_id`s `adb_map` holds for them, `_id` is set
      exactly when keyify_edges is, and every other attribute is unchanged. */
  ghost predicate LegacyEdgeResolved(g: GraphValue, keyifyEdges: bool, adbMap: map<NxId, MapEntry>, edge: Edge, j: nat)
    requires j < |g.edges|
  {
    var Edge(u, v, e) := g.edges[j];
    var a := edge.attrs;
    u in adbMap && v in adbMap
    && edge.u == u && edge.v == v
    && (keyifyEdges ==> "_id" in a)
    && a == (if keyifyEdges then e["_id" := a["_id"]] else e)
            ["_from" := PyStr(adbMap[u].adbId)]["_to" := PyStr(adbMap[v].adbId)]
  }

  /** An edge whose endpoints have no "id" attribute and that the edge loop
      buffers is resolved through `adb_map`. */
  lemma LegacyEdgeEffectResolves(hooks: Hooks, keyifyEdges: bool, data: map<NxId, Json>, adbMap: map<NxId, MapEntry>,
                                 g: GraphValue, j: nat)
    requires j < |g.edges|
    requires var Edge(u, v, _) := g.edges[j];
      u in data && v in data && "id" !in data[u] && "id" !in data[v]
    ensures var r := LegacyEdgeEffect(hooks, keyifyEdges, data, adbMap, g.edges[j]);
      r.Send? ==> LegacyEdgeResolved(g, keyifyEdges, adbMap, r.written, j)
  {
    var r := LegacyEdgeEffect(hooks, keyifyEdges, data, adbMap, g.edges[j]);
    var Edge(u, v, e) := g.edges[j];
    var fromN := NodeContext(u, data[u]);
    var toN := NodeContext(v, data[v]);
    match LegacyEdgeRoute(hooks, keyifyEdges, e, fromN, toN)
    case Err(_) =>
    case Ok(route) =>
      var e1 := route.1;
      if u in adbMap && v in adbMap {
        var a := r.written.attrs;
        assert a == e1["_from" := PyStr(adbMap[u].adbId)]["_to" := PyStr(adbMap[v].adbId)];
        if keyifyEdges {
          assert e1 == e["_id" := e1["_id"]];
          assert a["_id"] == e1["_id"];
        }
      }
  }

  /** An edge loop that ran through m edges without raising has buffered
      each of them, written them back as their effects say, and appended
      their documents to what was routed before, in order. */
  lemma {:induction false} LegacyEdgePassSends(effects: seq<EdgeEffect>, s0: EdgeLoopState, m: nat)
    requires m <= |effects| && m <= |s0.edges|
    requires s0.failure.None? && LegacyEdgePass(effects, s0, m).failure.None?
    ensures var s := LegacyEdgePass(effects, s0, m);
      |s.routed| == |s0.routed| + m && s.routed[..|s0.routed|] == s0.routed
      && forall j :: 0 <= j < m ==>
           (effects[j].Send? && s.edges[j] == effects[j].written
            && s.routed[|s0.routed| + j] == (effects[j].col, effects[j].written.attrs))
    decreases m
  {
    if m > 0 {
      LegacyEdgePassSends(effects, s0, m - 1);
      var prev := LegacyEdgePass(effects, s0, m - 1);
      var s := LegacyEdgePass(effects, s0, m);
      assert s == LegacyApply(prev, m - 1, effects[m - 1]);
      assert s.routed[..|s0.routed|] == prev.routed[..|s0.routed|];
    }
  }

  /** The node loop leaves the edges alone. */
  lemma {:induction false} LegacyNodePassEdges(hooks: Hooks, g: GraphValue, m0: map<NxId, MapEntry>, n: nat)
    requires NodesListed(g) && n <= |g.order|
    ensures LegacyNodePass(hooks, g, m0, n).edges == g.edges
    decreases n
  {
    if n > 0 {
      LegacyNodePassEdges(hooks, g, m0, n - 1);
    }
  }

  /** A whole import run that did not raise, on a graph whose nodes have no
      "id" attribute, has given every edge `_from` and `_to` from `adb_map` at
      its two endpoints, and an `_id` exactly when keyify_edges is set. */
  lemma LegacyImportResolves(hooks: Hooks, keyifyEdges: bool, g: GraphValue, m0: map<NxId, MapEntry>)
    requires WellFormed(g) && NoIdAttribute(g)
    requires LegacyImportSpec(hooks, keyifyEdges, g, m0).failure.None?
    ensures var s := LegacyImportSpec(hooks, keyifyEdges, g, m0);
      |s.edges| == |g.edges| && forall j :: 0 <= j < |g.edges| ==> LegacyEdgeResolved(g, keyifyEdges, s.adbMap, s.edges[j], j)
  {
    var sN := LegacyNodePass(hooks, g, m0, |g.order|);
    LegacyNodePassEdges(hooks, g, m0, |g.order|);
    var effects := LegacyEdgeEffects(hooks, keyifyEdges, sN.data, sN.adbMap, g.edges);
    var s0 := EdgeLoopState(g.edges, sN.routed, None);
    LegacyEdgePassSends(effects, s0, |g.edges|);
    forall j | 0 <= j < |g.edges|
      ensures LegacyEdgeResolved(g, keyifyEdges, sN.adbMap, LegacyEdgePass(effects, s0, |g.edges|).edges[j], j)
    {
      var Edge(u, v, _) := g.edges[j];
      assert u in g.data && v in g.data;
      LegacyNodeDataKeepsNoId(hooks, g, m0, |g.order|, u);
      LegacyNodeDataKeepsNoId(hooks, g, m0, |g.order|, v);
      LegacyEdgeEffectResolves(hooks, keyifyEdges, sN.data, sN.adbMap, g, j);
    }
  }

  /** Writing `_id` into node dictionaries adds no "id" attribute. */
  lemma {:induction false} LegacyNodeDataKeepsNoId(hooks: Hooks, g: GraphValue, m0: map<NxId, MapEntry>, n: nat, id: NxId)
    requires WellFormed(g) && NoIdAttribute(g) && n <= |g.order| && id in g.data
    ensures id in LegacyNodePass(hooks, g, m0, n).data && "id" !in LegacyNodePass(hooks, g, m0, n).data[id]
    decreases n
  {
    if n > 0 {
      LegacyNodeDataKeepsNoId(hooks, g, m0, n - 1, id);
    }
  }

  /** x is an ArangoDB document id: a collection and a key, neither holding a
      "/", joined by "/". */
  ghost predicate IsArangoId(x: PyValue) {
    exists c, k :: '/' !in c && '/' !in k && x == PyStr(MakeId(c, k))
  }

  /** The controller sends every node whose id is an ArangoDB id back under
      that id. */
  ghost predicate KeepsArangoIds(hooks: Hooks) {
    forall id: NxId, node: Json {:trigger LegacyNodeRoute(hooks, id, node)} :: IsArangoId(id) ==>
      LegacyNodeRoute(hooks, id, node).Ok?
      && PyStr(MakeId(LegacyNodeRoute(hooks, id, node).value.0, LegacyNodeRoute(hooks, id, node).value.1)) == id
  }

  /** With a controller that keeps ArangoDB ids, a graph whose node ids are
      all ArangoDB ids passes the node loop, and every node is sent back under
      its own id: `adb_map[id]["_id"] == id`. */
  lemma {:induction false} ArangoIdsKept(hooks: Hooks, g: GraphValue, m0: map<NxId, MapEntry>, n: nat)
    requires WellFormed(g) && n <= |g.order| && KeepsArangoIds(hooks)
    requires forall i :: 0 <= i < |g.order| ==> IsArangoId(g.order[i])
    ensures LegacyNodePass(hooks, g, m0, n).failure.None?
    ensures forall i :: 0 <= i < n ==>
      g.order[i] in LegacyNodePass(hooks, g, m0, n).adbMap
      && PyStr(LegacyNodePass(hooks, g, m0, n).adbMap[g.order[i]].adbId) == g.order[i]
    decreases n
  {
    if n > 0 {
      ArangoIdsKept(hooks, g, m0, n - 1);
      LegacyNodeKeepsId(hooks, g, m0, n);
      var s := LegacyNodePass(hooks, g, m0, n);
      forall i | 0 <= i < n - 1
        ensures g.order[i] in s.adbMap && PyStr(s.adbMap[g.order[i]].adbId) == g.order[i]
      {
        assert g.order[i] != g.order[n - 1];
      }
    }
  }

  /** With a controller that keeps ArangoDB ids, the node loop does not raise
      on a node whose id is an ArangoDB id, and records it in `adb_map` under
      that id. */
  lemma LegacyNodeKeepsId(hooks: Hooks, g: GraphValue, m0: map<NxId, MapEntry>, n: nat)
    requires NodesListed(g) && 0 < n <= |g.order| && KeepsArangoIds(hooks) && IsArangoId(g.order[n - 1])
    requires LegacyNodePass(hooks, g, m0, n - 1).failure.None?
    ensures var prev, s, id := LegacyNodePass(hooks, g, m0, n - 1), LegacyNodePass(hooks, g, m0, n), g.order[n - 1];
      s.failure.None? && id in s.adbMap && PyStr(s.adbMap[id].adbId) == id
      && s.adbMap == prev.adbMap[id := s.adbMap[id]]
  {
    var id := g.order[n - 1];
    var route := LegacyNodeRoute(hooks, id, g.data[id]);
    assert route.Ok?;
    LegacyNodePassNext(hooks, g, m0, n - 1);
  }

  /** The base controller keeps ArangoDB ids: a graph exported with it and
      imported again keeps its node ids. */
  lemma BaseControllerKeepsIds(g: GraphValue, m0: map<NxId, MapEntry>)
    requires WellFormed(g) && forall i :: 0 <= i < |g.order| ==> IsArangoId(g.order[i])
    ensures KeepsArangoIds(BaseController.AsHooks())
    ensures var s := LegacyNodePass(BaseController.AsHooks(), g, m0, |g.order|);
      s.failure.None? && forall i :: 0 <= i < |g.order| ==> g.order[i] in s.adbMap && PyStr(s.adbMap[g.order[i]].adbId) == g.order[i]
  {
    forall id: NxId, node: Json | IsArangoId(id)
      ensures LegacyNodeRoute(BaseController.AsHooks(), id, node).Ok?
      ensures PyStr(MakeId(LegacyNodeRoute(BaseController.AsHooks(), id, node).value.0,
                           LegacyNodeRoute(BaseController.AsHooks(), id, node).value.1)) == id
    {
      var route := BaseRoute(id, node);
    }
    ArangoIdsKept(BaseController.AsHooks(), g, m0, |g.order|);
  }

  /** The base controller routes an ArangoDB id to its own collection and key. */
  lemma BaseRoute(id: NxId, node: Json) returns (route: (string, string))
    requires IsArangoId(id)
    ensures LegacyNodeRoute(BaseController.AsHooks(), id, node) == Ok(route)
    ensures PyStr(MakeId(route.0, route.1)) == id
  {
    var c, k :| '/' !in c && '/' !in k && id == PyStr(MakeId(c, k));
    BaseController.NodeRoundTrip(c, k, node);
    route := (c, k);
  }

  // ---------------------------------------------------------------------------
  // The adapter.

  /** `ArangoDB_Networkx_Adapter` of the earlier revision: a database and a
      controller object. */
  class Adapter {
    const db: Database
    const cntrl: LegacyController

    constructor (db: Database, cntrl: LegacyController)
      ensures this.db == db && this.cntrl == cntrl
    {
      this.db := db;
      this.cntrl := cntrl;
    }

    /** `arangodb_to_networkx(name, graph_attributes, is_keep)`: the export
        runs against the controller's `nx_map`, which keeps what earlier calls
        recorded, and leaves its entries there, also when it raises. */
    method ArangodbToNetworkx(mg: Metagraph, isKeep: bool) returns (r: Result<ExportGraph>)
      modifies cntrl`nxMap
      ensures var s := ExportSpec(cntrl.hooks, GetThenSubscript, old(cntrl.nxMap), db.fetch, mg, isKeep);
        r == ExportResult(s) && cntrl.nxMap == s.adbMap
    {
      var nxMap;
      r, nxMap := RunExport(db.fetch, cntrl.hooks, GetThenSubscript, cntrl.nxMap, mg, isKeep);
      cntrl.nxMap := nxMap;
    }

    /** `arangodb_collections_to_networkx(name, vertex_collections,
        edge_collections)`: every collection with an empty attribute set,
        is_keep off. */
    method ArangodbCollectionsToNetworkx(vCols: seq<string>, eCols: seq<string>) returns (r: Result<ExportGraph>)
      modifies cntrl`nxMap
      ensures var s := ExportSpec(cntrl.hooks, GetThenSubscript, old(cntrl.nxMap), db.fetch, CollectionsMetagraph(vCols, eCols), false);
        r == ExportResult(s) && cntrl.nxMap == s.adbMap
    {
      r := ArangodbToNetworkx(CollectionsMetagraph(vCols, eCols), false);
    }

    /** `networkx_to_arangodb(name, original_nx_graph, edge_definitions,
        batch_size, keyify_edges)`. The caller's graph is copied and left
        alone. An invalid edge definition raises before anything is done;
        otherwise the controller's `adb_map` ends as `LegacyImportSpec` says,
        and on success every routed document has reached its collection
        exactly once and in order, whatever batchSize is. */
    method NetworkxToArangodb(g: NxGraph, eds: seq<EdgeDefinition>, batchSize: int, keyifyEdges: bool)
      returns (r: Outcome)
      requires g.Valid()
      modifies db, cntrl`adbMap
      ensures g.Value() == old(g.Value())
      ensures ValidateEdgeDefinitions(eds).Fail? ==>
        r == ValidateEdgeDefinitions(eds) && cntrl.adbMap == old(cntrl.adbMap) && db.flushes == old(db.flushes)
      ensures ValidateEdgeDefinitions(eds).Pass? ==>
        var s := LegacyImportSpec(cntrl.hooks, keyifyEdges, g.Value(), old(cntrl.adbMap));
        cntrl.adbMap == s.adbMap
        && r == (if s.failure.None? then Pass else Fail(s.failure.value))
        && (s.failure.None? ==> forall c :: Sent(db.flushes, c) == Sent(old(db.flushes), c) + DocsFor(s.routed, c))
        && (forall c :: Sent(db.flushes, c) <= Sent(old(db.flushes), c) + DocsFor(s.routed, c))
    {
      var check := CheckEdgeDefinitions(eds);
      if check.Fail? {
        return check;
      }
      var h := g.Copy();
      var failure, routed := LegacyRunImport(h, cntrl, db, keyifyEdges, batchSize);
      r := if failure.None? then Pass else Fail(failure.value);
    }
  }

  /** Both loops over the copy h and the final flush, on a fresh set of
      buffers: the copy and the controller's `adb_map` end as
      `LegacyImportSpec` says, and the database has received a prefix of the
      routed documents, all of them when nothing raised. */
  method LegacyRunImport(h: NxGraph, cntrl: LegacyController, db: Database, keyifyEdges: bool, batchSize: int)
    returns (failure: Option<Error>, ghost routed: seq<(string, Json)>)
    requires h.Valid()
    modifies h, cntrl`adbMap, db
    ensures var s := LegacyImportSpec(cntrl.hooks, keyifyEdges, old(h.Value()), old(cntrl.adbMap));
      h.data == s.data && h.edges == s.edges && cntrl.adbMap == s.adbMap
      && failure == s.failure && routed == s.routed
    ensures failure.None? ==> forall c :: Sent(db.flushes, c) == Sent(old(db.flushes), c) + DocsFor(routed, c)
    ensures forall c :: Sent(db.flushes, c) <= Sent(old(db.flushes), c) + DocsFor(routed, c)
  {
    ghost var g0 := h.Value();
    ghost var m0 := cntrl.adbMap;
    ghost var log0 := db.flushes;
    var buf := new DocumentBuffers(db);
    failure, routed := LegacyImportNodes(h, cntrl, buf, batchSize, log0);
    if failure.None? {
      failure, routed := LegacyImportEdges(h, cntrl.hooks, cntrl.adbMap, keyifyEdges, buf, batchSize,
                                           EdgeLoopState(h.edges, routed, None), log0);
    }
    ghost var log1 := db.flushes;
    if failure.None? {
      buf.FlushRemaining();
      FinalFlushesComplete(log0, log1, buf.order, buf.buffers, routed);
    } else {
      forall c
        ensures Sent(db.flushes, c) <= Sent(log0, c) + DocsFor(routed, c)
      {
        AccountedPrefix(log0, db.flushes, buf.buffers, routed, c);
      }
    }
  }

  /** One iteration of the node loop, on node number i of the copy h. */
  method LegacyImportNode(h: NxGraph, cntrl: LegacyController, buf: DocumentBuffers, batchSize: int, i: nat,
                          ghost routed: seq<(string, Json)>, ghost log0: seq<Flush>)
    returns (failure: Option<Error>, ghost routed': seq<(string, Json)>)
    requires i < |h.order| && h.order[i] in h.data
    requires buf.Valid() && Accounted(log0, buf.db.flushes, buf.buffers, routed)
    modifies h, cntrl`adbMap, buf, buf.db
    ensures h.order == old(h.order) && h.edges == old(h.edges)
    ensures LegacyNodeStep(cntrl.hooks, LegacyState(old(h.data), h.edges, old(cntrl.adbMap), routed, None), h.order[i], old(h.data[h.order[i]]))
      == LegacyState(h.data, h.edges, cntrl.adbMap, routed', failure)
    ensures buf.Valid() && Accounted(log0, buf.db.flushes, buf.buffers, routed')
  {
    var id := h.order[i];
    var node := h.data[id];
    var col := cntrl.hooks.identifyNode(id, node);
    if col.Err? {
      return Some(col.error), routed;
    }
    var key := cntrl.hooks.keyifyNode(id, node, col.value);
    if key.Err? {
      return Some(key.error), routed;
    }
    var adbId := MakeId(col.value, key.value);
    var doc := node["_id" := PyStr(adbId)];
    h.data := h.data[id := doc];
    cntrl.adbMap := cntrl.adbMap[id := MapEntry(adbId, col.value, key.value)];
    InsertKeepsAccounted(log0, buf.db.flushes, buf.buffers, routed, col.value, doc, batchSize);
    buf.InsertAdbDocs(col.value, doc, batchSize);
    failure, routed' := None, routed + [(col.value, doc)];
  }

  /** The node loop: route and key every node of the copy, write its `_id`,
      record it in the controller's `adb_map` and buffer it, until an
      exception. */
  method LegacyImportNodes(h: NxGraph, cntrl: LegacyController, buf: DocumentBuffers, batchSize: int, ghost log0: seq<Flush>)
    returns (failure: Option<Error>, ghost routed: seq<(string, Json)>)
    requires h.Valid() && buf.Valid() && Accounted(log0, buf.db.flushes, buf.buffers, [])
    modifies h, cntrl`adbMap, buf, buf.db
    ensures h.order == old(h.order) && h.edges == old(h.edges)
    ensures LegacyNodePass(cntrl.hooks, old(h.Value()), old(cntrl.adbMap), |h.order|)
      == LegacyState(h.data, h.edges, cntrl.adbMap, routed, failure)
    ensures buf.Valid() && Accounted(log0, buf.db.flushes, buf.buffers, routed)
  {
    ghost var g0 := h.Value();
    ghost var m0 := cntrl.adbMap;
    failure, routed := None, [];
    var i := 0;
    while i < |h.order| && failure.None?
      invariant i <= |g0.order| && h.order == g0.order && h.edges == g0.edges
      invariant LegacyNodePass(cntrl.hooks, g0, m0, i) == LegacyState(h.data, h.edges, cntrl.adbMap, routed, failure)
      invariant buf.Valid() && Accounted(log0, buf.db.flushes, buf.buffers, routed)
    {
      LegacyNodePassNext(cntrl.hooks, g0, m0, i);
      LegacyNodePassUntouched(cntrl.hooks, g0, m0, i);
      failure, routed := LegacyImportNode(h, cntrl, buf, batchSize, i, routed, log0);
      i := i + 1;
    }
    if failure.Some? {
      LegacyNodePassSticky(cntrl.hooks, g0, m0, i, |g0.order|);
    }
  }

  /** One iteration of the edge loop, on edge number j of the copy h. */
  method LegacyImportEdge(h: NxGraph, hooks: Hooks, adbMap: map<NxId, MapEntry>, keyifyEdges: bool, buf: DocumentBuffers, batchSize: int, j: nat,
                          ghost routed: seq<(string, Json)>, ghost log0: seq<Flush>)
    returns (failure: Option<Error>, ghost routed': seq<(string, Json)>)
    requires j < |h.edges|
    requires buf.Valid() && Accounted(log0, buf.db.flushes, buf.buffers, routed)
    modifies h, buf, buf.db
    ensures h.order == old(h.order) && h.data == old(h.data)
    ensures LegacyApply(EdgeLoopState(old(h.edges), routed, None), j, LegacyEdgeEffect(hooks, keyifyEdges, h.data, adbMap, old(h.edges[j])))
      == EdgeLoopState(h.edges, routed', failure)
    ensures buf.Valid() && Accounted(log0, buf.db.flushes, buf.buffers, routed')
  {
    var Edge(u, v, e) := h.edges[j];
    failure, routed' := None, routed;
    if u !in h.data {
      return Some(KeyError(u)), routed;
    } else if v !in h.data {
      return Some(KeyError(v)), routed;
    }
    var fromN := NodeContext(u, h.data[u]);
    var toN := NodeContext(v, h.data[v]);
    var col := hooks.identifyEdge(e, fromN, toN);
    if col.Err? {
      return Some(col.error), routed;
    }
    var keyed := KeyedEdge(hooks, keyifyEdges, e, fromN, toN, col.value);
    if keyed.Err? {
      return Some(keyed.error), routed;
    }
    var doc, err := LinkEndpoints(adbMap, fromN["id"], toN["id"], keyed.value);
    h.edges := h.edges[j := Edge(u, v, doc)];
    if err.Some? {
      return err, routed;
    }
    InsertKeepsAccounted(log0, buf.db.flushes, buf.buffers, routed, col.value, doc, batchSize);
    buf.InsertAdbDocs(col.value, doc, batchSize);
    routed' := routed + [(col.value, doc)];
  }

  /** The two lookups of `__insert_adb_edge`, on edge dictionary e. */
  method LinkEndpoints(adbMap: map<NxId, MapEntry>, x: NxId, y: NxId, e: Json) returns (doc: Json, failure: Option<Error>)
    ensures (doc, failure) == Linked(adbMap, x, y, e)
  {
    doc, failure := e, None;
    if x !in adbMap {
      return doc, Some(TypeError);
    }
    doc := doc["_from" := PyStr(adbMap[x].adbId)];
    if y !in adbMap {
      return doc, Some(TypeError);
    }
    doc := doc["_to" := PyStr(adbMap[y].adbId)];
  }

  /** One turn of the edge loop, as far as the pass over the effects goes. */
  method LegacyEdgeLoopStep(h: NxGraph, hooks: Hooks, adbMap: map<NxId, MapEntry>, keyifyEdges: bool, buf: DocumentBuffers,
                            batchSize: int, ghost effects: seq<EdgeEffect>, ghost s0: EdgeLoopState, ghost log0: seq<Flush>,
                            j: nat, ghost routed: seq<(string, Json)>)
    returns (failure: Option<Error>, ghost routed': seq<(string, Json)>)
    requires effects == LegacyEdgeEffects(hooks, keyifyEdges, h.data, adbMap, s0.edges)
    requires j < |s0.edges| == |h.edges|
    requires LegacyEdgePass(effects, s0, j) == EdgeLoopState(h.edges, routed, None)
    requires buf.Valid() && Accounted(log0, buf.db.flushes, buf.buffers, routed)
    modifies h, buf, buf.db
    ensures h.order == old(h.order) && h.data == old(h.data)
    ensures LegacyEdgePass(effects, s0, j + 1) == EdgeLoopState(h.edges, routed', failure)
    ensures buf.Valid() && Accounted(log0, buf.db.flushes, buf.buffers, routed')
  {
    LegacyEdgePassNext(effects, s0, j);
    assert h.edges[j] == s0.edges[j];
    failure, routed' := LegacyImportEdge(h, hooks, adbMap, keyifyEdges, buf, batchSize, j, routed, log0);
  }

  /** The edge loop: route every edge of the copy, key it if asked, write
      `_from` and `_to`, and buffer it, until an exception. */
  method LegacyImportEdges(h: NxGraph, hooks: Hooks, adbMap: map<NxId, MapEntry>, keyifyEdges: bool, buf: DocumentBuffers, batchSize: int,
                           ghost s0: EdgeLoopState, ghost log0: seq<Flush>)
    returns (failure: Option<Error>, ghost routed: seq<(string, Json)>)
    requires s0 == EdgeLoopState(h.edges, s0.routed, None)
    requires buf.Valid() && Accounted(log0, buf.db.flushes, buf.buffers, s0.routed)
    modifies h, buf, buf.db
    ensures h.order == old(h.order) && h.data == old(h.data)
    ensures LegacyEdgePass(LegacyEdgeEffects(hooks, keyifyEdges, h.data, adbMap, s0.edges), s0, |s0.edges|)
      == EdgeLoopState(h.edges, routed, failure)
    ensures buf.Valid() && Accounted(log0, buf.db.flushes, buf.buffers, routed)
  {
    ghost var effects := LegacyEdgeEffects(hooks, keyifyEdges, h.data, adbMap, s0.edges);
    failure, routed := None, s0.routed;
    var j := 0;
    while j < |h.edges| && failure.None?
      invariant j <= |s0.edges| == |h.edges|
      invariant h.order == old(h.order) && h.data == old(h.data)
      invariant LegacyEdgePass(effects, s0, j) == EdgeLoopState(h.edges, routed, failure)
      invariant buf.Valid() && Accounted(log0, buf.db.flushes, buf.buffers, routed)
    {
      failure, routed := LegacyEdgeLoopStep(h, hooks, adbMap, keyifyEdges, buf, batchSize, effects, s0, log0, j, routed);
      j := j + 1;
    }
    if failure.Some? {
      LegacyEdgePassSticky(effects, s0, j, |s0.edges|);
    } else {
      assert j == |s0.edges|;
    }
  }
}
