/**
 * The controller of the earlier adapter (Base_ADBNX_Controller): it assumes the
 * NetworkX ids are already ArangoDB ids "collection/key", routes a node or an
 * edge by the part before the first "/" and keys it by the part after it.
 */
module BaseController {
  import opened PyValues
  import opened AdbIds
  import opened ControllerHooks

  /** `_prepare_arangodb_vertex`: the NetworkX id of a vertex is its `_id`; the
      vertex itself is left alone. */
  function PrepareArangodbVertex(adbVertex: Json, col: string): (r: Result<(NxId, Json)>)
    ensures r.Ok? <==> "_id" in adbVertex
    ensures r.Ok? ==> r.value.0 == adbVertex["_id"] && r.value.1 == adbVertex
    ensures r.Err? ==> r.error == KeyError(PyStr("_id"))
  {
    var id :- Get(adbVertex, "_id");
    Ok((id, adbVertex))
  }

  /** `_prepare_arangodb_edge`: leaves the edge alone. */
  function PrepareArangodbEdge(adbEdge: Json, col: string): (r: Json)
    ensures r == adbEdge
  {
    adbEdge
  }

  /** `id.split("/")[0]` on a value that must be a str: any other value has no
      `split` and raises AttributeError. */
  function CollectionOfValue(id: PyValue): (r: Result<string>)
    ensures r.Ok? <==> id.PyStr?
    ensures r.Err? ==> r.error == AttributeError
    ensures r.Ok? ==> '/' !in r.value && r.value <= id.s
    ensures r.Ok? && |r.value| < |id.s| ==> id.s[|r.value|] == '/'
  {
    if id.PyStr? then Ok(CollectionOf(id.s)) else Err(AttributeError)
  }

  /** `id.split("/")[1]` on a value that must be a str; IndexError when the
      string has no "/". */
  function KeyOfValue(id: PyValue): (r: Result<string>)
    ensures r.Ok? <==> id.PyStr? && '/' in id.s
    ensures !id.PyStr? ==> r == Err(AttributeError)
    ensures id.PyStr? && '/' !in id.s ==> r == Err(IndexError)
    ensures r.Ok? ==> '/' !in r.value
  {
    if id.PyStr? then KeyOf(id.s) else Err(AttributeError)
  }

  /** `_identify_networkx_node`: the collection part of the node id. */
  function IdentifyNetworkxNode(nxNodeId: NxId, nxNode: Json): (r: Result<string>)
    ensures r.Ok? <==> nxNodeId.PyStr?
    ensures r.Ok? ==> '/' !in r.value
  {
    CollectionOfValue(nxNodeId)
  }

  /** `_identify_networkx_edge`: the collection part of the edge's `_id`. */
  function IdentifyNetworkxEdge(nxEdge: Json, fromNxNode: Json, toNxNode: Json): (r: Result<string>)
    ensures r.Ok? <==> "_id" in nxEdge && nxEdge["_id"].PyStr?
    ensures "_id" !in nxEdge ==> r == Err(KeyError(PyStr("_id")))
    ensures r.Ok? ==> '/' !in r.value
  {
    var id :- Get(nxEdge, "_id");
    CollectionOfValue(id)
  }

  /** `_keyify_networkx_node`: the key part of the node id; an id without "/"
      has no key part. */
  function KeyifyNetworkxNode(nxNodeId: NxId, nxNode: Json, col: string): (r: Result<string>)
    ensures r.Ok? <==> nxNodeId.PyStr? && '/' in nxNodeId.s
    ensures nxNodeId.PyStr? && '/' !in nxNodeId.s ==> r == Err(IndexError)
    ensures r.Ok? ==> '/' !in r.value
  {
    KeyOfValue(nxNodeId)
  }

  /** `_keyify_networkx_edge`: the key part of the edge's `_id`. */
  function KeyifyNetworkxEdge(nxEdge: Json, fromNxNode: Json, toNxNode: Json, col: string): (r: Result<string>)
    ensures r.Ok? <==> "_id" in nxEdge && nxEdge["_id"].PyStr? && '/' in nxEdge["_id"].s
    ensures "_id" !in nxEdge ==> r == Err(KeyError(PyStr("_id")))
    ensures "_id" in nxEdge && nxEdge["_id"].PyStr? && '/' !in nxEdge["_id"].s ==> r == Err(IndexError)
  {
    var id :- Get(nxEdge, "_id");
    KeyOfValue(id)
  }

  /** A node whose id is `c + "/" + k` (neither part containing "/") is routed
      to c and keyed by k, so the adapter rebuilds exactly that id. */
  lemma NodeRoundTrip(c: string, k: string, node: Json)
    requires '/' !in c && '/' !in k
    ensures IdentifyNetworkxNode(PyStr(MakeId(c, k)), node) == Ok(c)
    ensures KeyifyNetworkxNode(PyStr(MakeId(c, k)), node, c) == Ok(k)
  {
    IdRoundTrip(c, k);
  }

  /** The same for an edge whose `_id` is `c + "/" + k`. */
  lemma EdgeRoundTrip(c: string, k: string, edge: Json, fromNode: Json, toNode: Json)
    requires '/' !in c && '/' !in k
    requires "_id" in edge && edge["_id"] == PyStr(MakeId(c, k))
    ensures IdentifyNetworkxEdge(edge, fromNode, toNode) == Ok(c)
    ensures KeyifyNetworkxEdge(edge, fromNode, toNode, c) == Ok(k)
  {
    IdRoundTrip(c, k);
  }

  /** The controller as the earlier adapter calls it. */
  function AsHooks(): Hooks {
    Hooks(
      (v: Json, col: string) => PrepareArangodbVertex(v, col),
      (e: Json, col: string) => Ok(PrepareArangodbEdge(e, col)),
      (id: NxId, node: Json) => IdentifyNetworkxNode(id, node),
      (id: NxId, node: Json, col: string) => KeyifyNetworkxNode(id, node, col),
      (e: Json, f: Json, t: Json) => IdentifyNetworkxEdge(e, f, t),
      (e: Json, f: Json, t: Json, col: string) => KeyifyNetworkxEdge(e, f, t, col))
  }
}
