/**
 * The controllers shipped with the current adapter (adbnx_adapter/controller.py):
 * the default controller, whose routing hooks must be overridden and whose key
 * hooks number the documents, and the full-cycle controller, which routes and
 * keys a document by the ArangoDB `_id` and `_key` it was exported with.
 *
 * The hooks are modelled with the parameters they are declared with. The adapter
 * calls them with fewer arguments; `AsCalledByAdapter` gives what those calls do.
 */
module Controller {
  import opened PyValues
  import opened AdbIds
  import opened KeyHelpers
  import opened ControllerHooks
  import BaseController

  /** `_prepare_arangodb_vertex`: leaves the vertex alone and returns None. */
  function PrepareArangodbVertex(adbVertex: Json, col: string): (r: (PyValue, Json))
    ensures r.0 == PyNone && r.1 == adbVertex
  {
    (PyNone, adbVertex)
  }

  /** `_prepare_arangodb_edge`: leaves the edge alone. */
  function PrepareArangodbEdge(adbEdge: Json, col: string): (r: Json)
    ensures r == adbEdge
  {
    adbEdge
  }

  /** `_identify_networkx_node`: must be overridden. */
  function IdentifyNetworkxNode(nxNodeId: NxId, nxNode: Json, adbVCols: seq<string>): (r: Result<string>)
    ensures r == Err(NotImplementedError)
  {
    Err(NotImplementedError)
  }

  /** `_identify_networkx_edge`: must be overridden. */
  function IdentifyNetworkxEdge(nxEdge: Json, fromNodeId: NxId, toNodeId: NxId,
                                nxMap: map<NxId, string>, adbECols: seq<string>): (r: Result<string>)
    ensures r == Err(NotImplementedError)
  {
    Err(NotImplementedError)
  }

  /** `_keyify_networkx_node`: the node's position, `str(i)`. The result is
      already a valid key, has no "/", and reads back as i. */
  function KeyifyNetworkxNode(i: int, nxNodeId: NxId, nxNode: Json, col: string): (key: string)
    ensures KeyFilter(key) == key && '/' !in key
    ensures i >= 0 ==> (forall k :: 0 <= k < |key| ==> IsDigit(key[k])) && DecimalValue(key) == i
  {
    IntStrIsKey(i);
    assert i >= 0 ==> DecimalValue(NatToDecimal(i)) == i by {
      if i >= 0 { DecimalRoundTrip(i); }
    }
    IntToStr(i)
  }

  /** `_keyify_networkx_edge`: the edge's position, `str(i)`. */
  function KeyifyNetworkxEdge(i: int, nxEdge: Json, fromNodeId: NxId, toNodeId: NxId,
                              nxMap: map<NxId, string>, col: string): (key: string)
    ensures KeyFilter(key) == key && '/' !in key
    ensures i >= 0 ==> (forall k :: 0 <= k < |key| ==> IsDigit(key[k])) && DecimalValue(key) == i
  {
    KeyifyNetworkxNode(i, fromNodeId, nxEdge, col)
  }

  /** Two different positions never get the same default key. */
  lemma DefaultKeysDistinct(i: nat, j: nat, id: NxId, node: Json, col: string)
    requires i != j
    ensures KeyifyNetworkxNode(i, id, node, col) != KeyifyNetworkxNode(j, id, node, col)
  {
    NatToDecimalInjective(i, j);
  }

  /** `_prepare_networkx_node`: leaves the document alone. */
  function PrepareNetworkxNode(nxNode: Json, col: string): (r: Json)
    ensures r == nxNode
  {
    nxNode
  }

  /** `_prepare_networkx_edge`: leaves the document alone. */
  function PrepareNetworkxEdge(nxEdge: Json, col: string): (r: Json)
    ensures r == nxEdge
  {
    nxEdge
  }

  // ---------------------------------------------------------------------------
  // ADBNX_Controller_Full_Cycle

  /** `str(nx_node["_id"]).split("/")[0]`: the text of the stored `_id` up to
      its first "/". */
  function FullCycleIdentifyNode(nxNodeId: NxId, nxNode: Json, adbVCols: seq<string>): (r: Result<string>)
    ensures r.Err? <==> "_id" !in nxNode
    ensures r.Err? ==> r.error == KeyError(PyStr("_id"))
    ensures r.Ok? ==> '/' !in r.value && r.value <= Str(nxNode["_id"])
    ensures r.Ok? && |r.value| < |Str(nxNode["_id"])| ==> Str(nxNode["_id"])[|r.value|] == '/'
  {
    var id :- Get(nxNode, "_id");
    Ok(CollectionOf(Str(id)))
  }

  /** The same on the edge's stored `_id`. */
  function FullCycleIdentifyEdge(nxEdge: Json, fromNodeId: NxId, toNodeId: NxId,
                                 nxMap: map<NxId, string>, adbECols: seq<string>): (r: Result<string>)
    ensures r.Err? <==> "_id" !in nxEdge
    ensures r.Err? ==> r.error == KeyError(PyStr("_id"))
    ensures r.Ok? ==> '/' !in r.value && r.value <= Str(nxEdge["_id"])
    ensures r.Ok? && |r.value| < |Str(nxEdge["_id"])| ==> Str(nxEdge["_id"])[|r.value|] == '/'
  {
    FullCycleIdentifyNode(fromNodeId, nxEdge, adbECols)
  }

  /** `str(nx_node["_key"])`: the stored `_key`. */
  function FullCycleKeyifyNode(i: int, nxNodeId: NxId, nxNode: Json, col: string): (r: Result<string>)
    ensures r.Err? <==> "_key" !in nxNode
    ensures r.Err? ==> r.error == KeyError(PyStr("_key"))
    ensures r.Ok? && nxNode["_key"].PyStr? ==> r.value == nxNode["_key"].s
  {
    var key :- Get(nxNode, "_key");
    Ok(Str(key))
  }

  /** `str(nx_edge["_key"])`: the stored `_key`. */
  function FullCycleKeyifyEdge(i: int, nxEdge: Json, fromNodeId: NxId, toNodeId: NxId,
                               nxMap: map<NxId, string>, col: string): (r: Result<string>)
    ensures r.Err? <==> "_key" !in nxEdge
    ensures r.Err? ==> r.error == KeyError(PyStr("_key"))
    ensures r.Ok? && nxEdge["_key"].PyStr? ==> r.value == nxEdge["_key"].s
  {
    FullCycleKeyifyNode(i, fromNodeId, nxEdge, col)
  }

  /** A document exported from ArangoDB carries `_id == col + "/" + key` and
      `_key == key`; the full-cycle controller sends it back to the same
      collection under the same key, so it is rebuilt with its original `_id`. */
  lemma FullCycleRoundTrip(col: string, key: string, doc: Json, i: int)
    requires '/' !in col && '/' !in key
    requires "_id" in doc && doc["_id"] == PyStr(MakeId(col, key))
    requires "_key" in doc && doc["_key"] == PyStr(key)
    ensures FullCycleIdentifyNode(PyNone, doc, []) == Ok(col)
    ensures FullCycleKeyifyNode(i, PyNone, doc, col) == Ok(key)
    ensures FullCycleIdentifyEdge(doc, PyNone, PyNone, map[], []) == Ok(col)
    ensures FullCycleKeyifyEdge(i, doc, PyNone, PyNone, map[], col) == Ok(key)
    ensures MakeId(col, key) == doc["_id"].s
  {
    IdRoundTrip(col, key);
  }

  // ---------------------------------------------------------------------------
  // The hooks as the adapter calls them.

  /** adapter.py calls `_identify_networkx_node(nx_id, nx_node)`,
      `_keyify_networkx_node(nx_id, nx_node, col)`,
      `_identify_networkx_edge(nx_edge, from_n, to_n)` and
      `_keyify_networkx_edge(nx_edge, from_n, to_n, col)`: each call is one
      argument or more short of the declared signature (of both controllers) and
      raises TypeError. The prepare hooks accept the call; the vertex hook
      returns None, which becomes the NetworkX node id. */
  function AsCalledByAdapter(): Hooks {
    Hooks(
      (v: Json, col: string) => Ok(PrepareArangodbVertex(v, col)),
      (e: Json, col: string) => Ok(PrepareArangodbEdge(e, col)),
      (id: NxId, node: Json) => Err(TypeError),
      (id: NxId, node: Json, col: string) => Err(TypeError),
      (e: Json, f: Json, t: Json) => Err(TypeError),
      (e: Json, f: Json, t: Json, col: string) => Err(TypeError))
  }

  /** The hooks as the adapter calls them, with `_prepare_arangodb_vertex` doing
      what its documentation says: the vertex's own `_id` is its NetworkX id,
      as the earlier adapter's base controller does. */
  function AsDocumented(): Hooks {
    AsCalledByAdapter().(prepareVertex := (v: Json, col: string) => BaseController.PrepareArangodbVertex(v, col))
  }
}
