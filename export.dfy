/**
 * `ADBNX_Adapter.arangodb_to_networkx` (adbnx_adapter/adapter.py): validate the
 * metagraph, fetch every vertex collection and record each vertex in
 * `adb_map` under its `_id`, then fetch every edge collection and resolve
 * each edge's `_from` and `_to` through `adb_map`. The result is the list of
 * nodes and the list of edges handed to NetworkX.
 *
 * The specification is a fold over the fetched documents (`VertexFold`,
 * `EdgeFold`); the methods run the nested loops of the source.
 */
module Export {
  import opened PyValues
  import opened ControllerHooks
  import opened Validation
  import opened NxGraphs

  /** A metagraph: the keys it has, and the collections under
      "vertexCollections" and "edgeCollections", in dict order, each with the
      attributes to keep. */
  datatype Metagraph = Metagraph(
    fields: set<string>,
    vertexCollections: seq<(string, set<string>)>,
    edgeCollections: seq<(string, set<string>)>)

  /** `adb_map[adb_id] = {"nx_id": ..., "collection": ...}`. */
  datatype AdbMapEntry = AdbMapEntry(nxId: NxId, collection: string)

  /** The state of an export run: `adb_map`, `nx_nodes`, `nx_edges` and the
      exception that stopped the run, if any. */
  datatype ExportState = ExportState(
    adbMap: map<PyValue, AdbMapEntry>,
    nodes: seq<(NxId, Json)>,
    edges: seq<Edge>,
    failure: Option<Error>)

  /** What the export hands to NetworkX: `add_nodes_from(nx_nodes)` and
      `add_edges_from(nx_edges)`. */
  datatype ExportGraph = ExportGraph(nodes: seq<(NxId, Json)>, edges: seq<Edge>)

  /** A run that has recorded nothing yet, starting from the map m0 (empty in
      adapter.py; the controller's map left by earlier calls in the older
      adapter). */
  function Start(m0: map<PyValue, AdbMapEntry>): ExportState {
    ExportState(m0, [], [], None)
  }

  const Empty := Start(map[])

  /** How an edge endpoint is looked up: `adb_map[x]["nx_id"]` (adapter.py)
      raises KeyError for an unmapped x; `nx_map.get(x)["_id"]` (the older
      adapter) subscripts None and raises TypeError. */
  datatype EndpointLookup = Subscript | GetThenSubscript

  function Unmapped(lookup: EndpointLookup, x: PyValue): (e: Error)
    ensures e.KeyError? || e.TypeError?
  {
    if lookup.Subscript? then KeyError(x) else TypeError
  }

  /** The documents of one collection, each paired with the collection name. */
  function Tag(col: string, docs: seq<Json>): (r: seq<(string, Json)>)
    ensures |r| == |docs| && forall k :: 0 <= k < |docs| ==> r[k] == (col, docs[k])
  {
    seq(|docs|, k requires 0 <= k < |docs| => (col, docs[k]))
  }

  /** The documents the collection queries return, one collection after the
      other in the metagraph's order, each with its collection. */
  function Fetched(fetch: (string, set<string>, bool) -> seq<Json>, cols: seq<(string, set<string>)>, isKeep: bool)
    : seq<(string, Json)>
    decreases |cols|
  {
    if cols == [] then []
    else
      var (col, atribs) := cols[|cols| - 1];
      Fetched(fetch, cols[..|cols| - 1], isKeep) + Tag(col, fetch(col, atribs, isKeep))
  }

  /** One iteration of the vertex loop: read `_id`, call the prepare hook, whose
      result is the NetworkX id, and record the vertex. */
  function VertexStep(hooks: Hooks, s: ExportState, col: string, doc: Json): ExportState {
    if "_id" !in doc then s.(failure := Some(KeyError(PyStr("_id"))))
    else
      match hooks.prepareVertex(doc, col)
      case Err(e) => s.(failure := Some(e))
      case Ok(prepared) =>
        s.(adbMap := s.adbMap[doc["_id"] := AdbMapEntry(prepared.0, col)],
           nodes := s.nodes + [prepared])
  }

  /** The vertex loop over docs, stopping at the first exception. */
  function VertexFold(hooks: Hooks, s0: ExportState, docs: seq<(string, Json)>): (s: ExportState)
    ensures s.edges == s0.edges
    decreases |docs|
  {
    if docs == [] then s0
    else
      var s := VertexFold(hooks, s0, docs[..|docs| - 1]);
      if s.failure.Some? then s else VertexStep(hooks, s, docs[|docs| - 1].0, docs[|docs| - 1].1)
  }

  /** Both endpoints of an edge document are present and recorded in
      `adb_map`. */
  predicate Resolves(adbMap: map<PyValue, AdbMapEntry>, doc: Json) {
    "_from" in doc && doc["_from"] in adbMap && "_to" in doc && doc["_to"] in adbMap
  }

  /** One iteration of the edge loop: look up `_from`, then `_to`, in
      `adb_map`, call the prepare hook and record the edge. */
  function EdgeStep(hooks: Hooks, lookup: EndpointLookup, s: ExportState, col: string, doc: Json): ExportState {
    if "_from" !in doc then s.(failure := Some(KeyError(PyStr("_from"))))
    else if doc["_from"] !in s.adbMap then s.(failure := Some(Unmapped(lookup, doc["_from"])))
    else if "_to" !in doc then s.(failure := Some(KeyError(PyStr("_to"))))
    else if doc["_to"] !in s.adbMap then s.(failure := Some(Unmapped(lookup, doc["_to"])))
    else
      match hooks.prepareEdge(doc, col)
      case Err(e) => s.(failure := Some(e))
      case Ok(prepared) =>
        s.(edges := s.edges + [Edge(s.adbMap[doc["_from"]].nxId, s.adbMap[doc["_to"]].nxId, prepared)])
  }

  /** The edge loop over docs, stopping at the first exception. */
  function EdgeFold(hooks: Hooks, lookup: EndpointLookup, s0: ExportState, docs: seq<(string, Json)>): (s: ExportState)
    ensures s.adbMap == s0.adbMap && s.nodes == s0.nodes
    decreases |docs|
  {
    if docs == [] then s0
    else
      var s := EdgeFold(hooks, lookup, s0, docs[..|docs| - 1]);
      if s.failure.Some? then s else EdgeStep(hooks, lookup, s, docs[|docs| - 1].0, docs[|docs| - 1].1)
  }

  /** The whole export, starting from the map m0: the metagraph is validated
      first, every vertex collection is loaded before any edge collection. */
  function ExportSpec(hooks: Hooks, lookup: EndpointLookup, m0: map<PyValue, AdbMapEntry>,
                      fetch: (string, set<string>, bool) -> seq<Json>, mg: Metagraph, isKeep: bool): ExportState {
    match ValidateAttributes("graph", mg.fields, MetagraphAtribs)
    case Fail(e) => Start(m0).(failure := Some(e))
    case Pass =>
      var sV := VertexFold(hooks, Start(m0), Fetched(fetch, mg.vertexCollections, isKeep));
      if sV.failure.Some? then sV
      else EdgeFold(hooks, lookup, sV, Fetched(fetch, mg.edgeCollections, isKeep))
  }

  /** The return value of the export: the graph, or the exception. */
  function ExportResult(s: ExportState): (r: Result<ExportGraph>)
    ensures r.Err? <==> s.failure.Some?
    ensures r.Err? ==> r.error == s.failure.value
    ensures r.Ok? ==> r.value.nodes == s.nodes && r.value.edges == s.edges
  {
    if s.failure.Some? then Err(s.failure.value) else Ok(ExportGraph(s.nodes, s.edges))
  }

  // ---------------------------------------------------------------------------
  // Properties of the specification.

  /** An exception ends the vertex loop. */
  lemma {:induction false} VertexFoldSticky(hooks: Hooks, s0: ExportState, docs: seq<(string, Json)>)
    requires s0.failure.Some?
    ensures VertexFold(hooks, s0, docs) == s0
    decreases |docs|
  {
    if docs != [] {
      VertexFoldSticky(hooks, s0, docs[..|docs| - 1]);
    }
  }

  /** Every document the vertex loop went through has an `_id`. */
  predicate HasIds(docs: seq<(string, Json)>) {
    forall t :: 0 <= t < |docs| ==> "_id" in docs[t].1
  }

  /** A vertex loop that raised nothing went through vertices that all have an
      `_id`, and each became the node the prepare hook returned for it, in
      order. */
  lemma {:induction false} VertexFoldNodes(hooks: Hooks, m0: map<PyValue, AdbMapEntry>, docs: seq<(string, Json)>)
    requires VertexFold(hooks, Start(m0), docs).failure.None?
    ensures HasIds(docs)
    ensures var s := VertexFold(hooks, Start(m0), docs);
      |s.nodes| == |docs|
      && forall t :: 0 <= t < |docs| ==> hooks.prepareVertex(docs[t].1, docs[t].0) == Ok(s.nodes[t])
    decreases |docs|
  {
    if docs != [] {
      var init := docs[..|docs| - 1];
      var prev := VertexFold(hooks, Start(m0), init);
      assert prev.failure.None?;
      VertexFoldNodes(hooks, m0, init);
      forall t | 0 <= t < |init|
        ensures docs[t] == init[t]
      {
      }
    }
  }

  /** `adb_map` holds exactly what it held at the start and the `_id`s of the
      vertices fetched. */
  lemma {:induction false} VertexFoldKeys(hooks: Hooks, m0: map<PyValue, AdbMapEntry>, docs: seq<(string, Json)>)
    requires HasIds(docs) && VertexFold(hooks, Start(m0), docs).failure.None?
    ensures forall id :: id in VertexFold(hooks, Start(m0), docs).adbMap <==>
      id in m0 || exists t :: 0 <= t < |docs| && docs[t].1["_id"] == id
    decreases |docs|
  {
    if docs != [] {
      var init := docs[..|docs| - 1];
      assert VertexFold(hooks, Start(m0), init).failure.None?;
      assert HasIds(init) by {
        forall t | 0 <= t < |init| ensures "_id" in init[t].1 {
          assert init[t] == docs[t];
        }
      }
      VertexFoldKeys(hooks, m0, init);
      var prev := VertexFold(hooks, Start(m0), init);
      var s := VertexFold(hooks, Start(m0), docs);
      var last := docs[|docs| - 1].1["_id"];
      assert s.adbMap.Keys == prev.adbMap.Keys + {last};
      forall id
        ensures id in s.adbMap <==> id in m0 || exists t :: 0 <= t < |docs| && docs[t].1["_id"] == id
      {
        if id in prev.adbMap && id !in m0 {
          var t :| 0 <= t < |init| && init[t].1["_id"] == id;
          assert docs[t] == init[t];
        } else if exists t :: 0 <= t < |docs| && docs[t].1["_id"] == id {
          var t :| 0 <= t < |docs| && docs[t].1["_id"] == id;
          if t < |init| {
            assert init[t] == docs[t];
          }
        }
      }
    }
  }

  /** Each vertex is recorded under its `_id` with the id the prepare hook gave
      it and its collection, unless a later vertex has the same `_id`. */
  lemma {:induction false} VertexFoldLastWins(hooks: Hooks, m0: map<PyValue, AdbMapEntry>, docs: seq<(string, Json)>)
    requires HasIds(docs) && VertexFold(hooks, Start(m0), docs).failure.None?
    ensures var s := VertexFold(hooks, Start(m0), docs);
      |s.nodes| == |docs|
      && forall t :: 0 <= t < |docs| && LastWithId(docs, t) ==>
        (docs[t].1["_id"] in s.adbMap && s.adbMap[docs[t].1["_id"]] == AdbMapEntry(s.nodes[t].0, docs[t].0))
    decreases |docs|
  {
    if docs != [] {
      var init := docs[..|docs| - 1];
      var (col, doc) := docs[|docs| - 1];
      var prev := VertexFold(hooks, Start(m0), init);
      var s := VertexFold(hooks, Start(m0), docs);
      assert prev.failure.None?;
      assert HasIds(init) by {
        forall t | 0 <= t < |init| ensures "_id" in init[t].1 {
          assert init[t] == docs[t];
        }
      }
      VertexFoldLastWins(hooks, m0, init);
      var p := hooks.prepareVertex(doc, col);
      assert p.Ok? && s.adbMap == prev.adbMap[doc["_id"] := AdbMapEntry(p.value.0, col)] && s.nodes == prev.nodes + [p.value];
      forall t | 0 <= t < |init| && LastWithId(docs, t)
        ensures docs[t].1["_id"] in s.adbMap && s.adbMap[docs[t].1["_id"]] == AdbMapEntry(s.nodes[t].0, docs[t].0)
      {
        LastWithIdInit(docs, t);
        assert doc["_id"] != docs[t].1["_id"];
      }
    }
  }

  /** Vertex number t of docs is the last with its `_id`. */
  ghost predicate LastWithId(docs: seq<(string, Json)>, t: nat)
    requires HasIds(docs) && t < |docs|
  {
    forall t' :: t < t' < |docs| ==> docs[t'].1["_id"] != docs[t].1["_id"]
  }

  /** Being last in docs means being last in every prefix of docs that has
      it, and differing from the final vertex. */
  lemma LastWithIdInit(docs: seq<(string, Json)>, t: nat)
    requires HasIds(docs) && t < |docs| - 1 && LastWithId(docs, t)
    ensures HasIds(docs[..|docs| - 1]) && LastWithId(docs[..|docs| - 1], t)
    ensures docs[|docs| - 1].1["_id"] != docs[t].1["_id"]
  {
    var init := docs[..|docs| - 1];
    forall t' | 0 <= t' < |init| ensures "_id" in init[t'].1 && init[t'] == docs[t'] {
      assert init[t'] == docs[t'];
    }
  }

  /** Entries of the starting map that no fetched vertex replaces survive the
      vertex loop unchanged. */
  lemma {:induction false} VertexFoldKeepsOld(hooks: Hooks, m0: map<PyValue, AdbMapEntry>, docs: seq<(string, Json)>, id: PyValue)
    requires id in m0 && forall t :: 0 <= t < |docs| ==> "_id" in docs[t].1 ==> docs[t].1["_id"] != id
    ensures id in VertexFold(hooks, Start(m0), docs).adbMap
    ensures VertexFold(hooks, Start(m0), docs).adbMap[id] == m0[id]
    decreases |docs|
  {
    if docs != [] {
      var init := docs[..|docs| - 1];
      assert forall t :: 0 <= t < |init| ==> init[t] == docs[t];
      VertexFoldKeepsOld(hooks, m0, init, id);
    }
  }

  /** An exception ends the edge loop. */
  lemma {:induction false} EdgeFoldSticky(hooks: Hooks, lookup: EndpointLookup, s0: ExportState, docs: seq<(string, Json)>)
    requires s0.failure.Some?
    ensures EdgeFold(hooks, lookup, s0, docs) == s0
    decreases |docs|
  {
    if docs != [] {
      EdgeFoldSticky(hooks, lookup, s0, docs[..|docs| - 1]);
    }
  }

  /** An edge loop that raised nothing resolved every edge: its endpoints are
      the NetworkX ids `adb_map` records for its `_from` and `_to`, and its
      attributes are what the prepare hook returned. */
  lemma {:induction false} EdgeFoldResolves(hooks: Hooks, lookup: EndpointLookup, s0: ExportState, docs: seq<(string, Json)>)
    requires EdgeFold(hooks, lookup, s0, docs).failure.None?
    ensures var s := EdgeFold(hooks, lookup, s0, docs);
      |s.edges| == |s0.edges| + |docs|
      && forall t :: 0 <= t < |docs| ==>
        (Resolves(s0.adbMap, docs[t].1) && hooks.prepareEdge(docs[t].1, docs[t].0).Ok?
         && s.edges[|s0.edges| + t] == Edge(s0.adbMap[docs[t].1["_from"]].nxId, s0.adbMap[docs[t].1["_to"]].nxId,
                                            hooks.prepareEdge(docs[t].1, docs[t].0).value))
    decreases |docs|
  {
    if docs != [] {
      var init := docs[..|docs| - 1];
      var prev := EdgeFold(hooks, lookup, s0, init);
      assert prev.failure.None?;
      EdgeFoldResolves(hooks, lookup, s0, init);
      forall t | 0 <= t < |init|
        ensures docs[t] == init[t]
      {
      }
    }
  }

  /** An edge whose `_from` or `_to` is missing or not in `adb_map` aborts the
      edge loop. */
  lemma {:induction false} EdgeFoldDangling(hooks: Hooks, lookup: EndpointLookup, s0: ExportState, docs: seq<(string, Json)>, t: nat)
    requires t < |docs| && !Resolves(s0.adbMap, docs[t].1)
    ensures EdgeFold(hooks, lookup, s0, docs).failure.Some?
    decreases |docs|
  {
    var init := docs[..|docs| - 1];
    if t < |init| {
      assert init[t] == docs[t];
      EdgeFoldDangling(hooks, lookup, s0, init, t);
    }
  }

  /** With a prepare hook that accepts every edge, the edge loop raises
      exactly when some edge does not resolve; the exception is a KeyError,
      or the TypeError of the older adapter's `get`. */
  lemma {:induction false} EdgeFoldFailsIff(hooks: Hooks, lookup: EndpointLookup, s0: ExportState, docs: seq<(string, Json)>)
    requires s0.failure.None?
    requires forall t :: 0 <= t < |docs| ==> hooks.prepareEdge(docs[t].1, docs[t].0).Ok?
    ensures EdgeFold(hooks, lookup, s0, docs).failure.None? <==> forall t :: 0 <= t < |docs| ==> Resolves(s0.adbMap, docs[t].1)
    ensures EdgeFold(hooks, lookup, s0, docs).failure.Some? ==>
      var e := EdgeFold(hooks, lookup, s0, docs).failure.value;
      if lookup.Subscript? then e.KeyError? else e.KeyError? || e.TypeError?
    decreases |docs|
  {
    if docs != [] {
      var init := docs[..|docs| - 1];
      assert forall t :: 0 <= t < |init| ==> init[t] == docs[t];
      EdgeFoldFailsIff(hooks, lookup, s0, init);
      if EdgeFold(hooks, lookup, s0, docs).failure.Some? && forall t :: 0 <= t < |docs| ==> Resolves(s0.adbMap, docs[t].1) {
        assert EdgeFold(hooks, lookup, s0, init).failure.None?;
      }
    }
  }

  /** A successful export validated the metagraph, turned every fetched
      vertex into a node, and joined every fetched edge through the map of all
      the vertices, whatever collection they came from. */
  lemma ExportSpecComplete(hooks: Hooks, lookup: EndpointLookup, m0: map<PyValue, AdbMapEntry>,
                           fetch: (string, set<string>, bool) -> seq<Json>, mg: Metagraph, isKeep: bool)
    requires ExportSpec(hooks, lookup, m0, fetch, mg, isKeep).failure.None?
    ensures MetagraphAtribs <= mg.fields
    ensures var vs := Fetched(fetch, mg.vertexCollections, isKeep);
      var es := Fetched(fetch, mg.edgeCollections, isKeep);
      var s := ExportSpec(hooks, lookup, m0, fetch, mg, isKeep);
      s.adbMap == VertexFold(hooks, Start(m0), vs).adbMap
      && |s.nodes| == |vs| && |s.edges| == |es|
      && forall t :: 0 <= t < |es| ==>
        (Resolves(s.adbMap, es[t].1)
         && s.edges[t].u == s.adbMap[es[t].1["_from"]].nxId
         && s.edges[t].v == s.adbMap[es[t].1["_to"]].nxId)
  {
    var vs := Fetched(fetch, mg.vertexCollections, isKeep);
    var es := Fetched(fetch, mg.edgeCollections, isKeep);
    var sV := VertexFold(hooks, Start(m0), vs);
    var s := ExportSpec(hooks, lookup, m0, fetch, mg, isKeep);
    assert ValidateAttributes("graph", mg.fields, MetagraphAtribs).Pass?;
    assert sV.failure.None? && s == EdgeFold(hooks, lookup, sV, es);
    VertexFoldNodes(hooks, m0, vs);
    EdgeFoldResolves(hooks, lookup, sV, es);
    assert |sV.edges| == 0;
  }

  /** Collections chosen by name only: each maps to an empty attribute set,
      so the metagraph passes validation. */
  function CollectionsMetagraph(vCols: seq<string>, eCols: seq<string>): (mg: Metagraph)
    ensures ValidateAttributes("graph", mg.fields, MetagraphAtribs).Pass?
    ensures |mg.vertexCollections| == |vCols| && |mg.edgeCollections| == |eCols|
    ensures forall k :: 0 <= k < |vCols| ==> mg.vertexCollections[k] == (vCols[k], {})
    ensures forall k :: 0 <= k < |eCols| ==> mg.edgeCollections[k] == (eCols[k], {})
  {
    Metagraph(
      {"vertexCollections", "edgeCollections"},
      seq(|vCols|, k requires 0 <= k < |vCols| => (vCols[k], {})),
      seq(|eCols|, k requires 0 <= k < |eCols| => (eCols[k], {})))
  }

  // ---------------------------------------------------------------------------
  // The loops.

  /** The vertex loops, starting from the map m0: for every vertex collection,
      for every document its query returns, one `VertexStep`. After an
      exception nothing more is recorded. */
  method ExportVertices(fetch: (string, set<string>, bool) -> seq<Json>, hooks: Hooks,
                        cols: seq<(string, set<string>)>, isKeep: bool, m0: map<PyValue, AdbMapEntry>)
    returns (adbMap: map<PyValue, AdbMapEntry>, nodes: seq<(NxId, Json)>, failure: Option<Error>)
    ensures VertexFold(hooks, Start(m0), Fetched(fetch, cols, isKeep)) == ExportState(adbMap, nodes, [], failure)
  {
    adbMap, nodes, failure := m0, [], None;
    for i := 0 to |cols|
      invariant VertexFold(hooks, Start(m0), Fetched(fetch, cols[..i], isKeep)) == ExportState(adbMap, nodes, [], failure)
    {
      var (col, atribs) := cols[i];
      var docs := fetch(col, atribs, isKeep);
      adbMap, nodes, failure := ExportCollectionVertices(hooks, Start(m0), Fetched(fetch, cols[..i], isKeep), col, docs,
                                                         adbMap, nodes, failure);
      assert cols[..i + 1][..i] == cols[..i];
    }
    assert cols[..|cols|] == cols;
  }

  /** The inner vertex loop, over the documents of one collection. */
  method ExportCollectionVertices(hooks: Hooks, ghost s0: ExportState, ghost before: seq<(string, Json)>, col: string, docs: seq<Json>,
                                  adbMap: map<PyValue, AdbMapEntry>, nodes: seq<(NxId, Json)>, failure: Option<Error>)
    returns (adbMap': map<PyValue, AdbMapEntry>, nodes': seq<(NxId, Json)>, failure': Option<Error>)
    requires VertexFold(hooks, s0, before) == ExportState(adbMap, nodes, [], failure)
    ensures VertexFold(hooks, s0, before + Tag(col, docs)) == ExportState(adbMap', nodes', [], failure')
  {
    adbMap', nodes', failure' := adbMap, nodes, failure;
    assert before + Tag(col, docs[..0]) == before;
    for k := 0 to |docs|
      invariant VertexFold(hooks, s0, before + Tag(col, docs[..k])) == ExportState(adbMap', nodes', [], failure')
    {
      var doc := docs[k];
      ghost var prefix := before + Tag(col, docs[..k]);
      assert before + Tag(col, docs[..k + 1]) == prefix + [(col, doc)];
      assert (prefix + [(col, doc)])[..|prefix|] == prefix;
      if failure'.None? {
        adbMap', nodes', failure' := ExportVertex(hooks, adbMap', nodes', col, doc);
      }
    }
    assert docs[..|docs|] == docs;
  }

  /** The body of the vertex loop, on one document. */
  method ExportVertex(hooks: Hooks, adbMap: map<PyValue, AdbMapEntry>, nodes: seq<(NxId, Json)>, col: string, doc: Json)
    returns (adbMap': map<PyValue, AdbMapEntry>, nodes': seq<(NxId, Json)>, failure: Option<Error>)
    ensures VertexStep(hooks, ExportState(adbMap, nodes, [], None), col, doc) == ExportState(adbMap', nodes', [], failure)
  {
    adbMap', nodes', failure := adbMap, nodes, None;
    if "_id" !in doc {
      failure := Some(KeyError(PyStr("_id")));
    } else {
      var adbId := doc["_id"];
      var prepared := hooks.prepareVertex(doc, col);
      if prepared.Err? {
        failure := Some(prepared.error);
      } else {
        adbMap' := adbMap[adbId := AdbMapEntry(prepared.value.0, col)];
        nodes' := nodes + [prepared.value];
      }
    }
  }

  /** The body of the edge loop, on one document. */
  method ExportEdge(hooks: Hooks, lookup: EndpointLookup, s0: ExportState, edges: seq<Edge>, col: string, doc: Json)
    returns (edges': seq<Edge>, failure: Option<Error>)
    ensures EdgeStep(hooks, lookup, s0.(edges := edges, failure := None), col, doc) == s0.(edges := edges', failure := failure)
  {
    edges', failure := edges, None;
    if "_from" !in doc {
      failure := Some(KeyError(PyStr("_from")));
    } else if doc["_from"] !in s0.adbMap {
      failure := Some(Unmapped(lookup, doc["_from"]));
    } else if "_to" !in doc {
      failure := Some(KeyError(PyStr("_to")));
    } else if doc["_to"] !in s0.adbMap {
      failure := Some(Unmapped(lookup, doc["_to"]));
    } else {
      var fromNodeId := s0.adbMap[doc["_from"]].nxId;
      var toNodeId := s0.adbMap[doc["_to"]].nxId;
      var prepared := hooks.prepareEdge(doc, col);
      if prepared.Err? {
        failure := Some(prepared.error);
      } else {
        edges' := edges + [Edge(fromNodeId, toNodeId, prepared.value)];
      }
    }
  }

  /** The edge loops: for every edge collection, for every document its query
      returns, one `EdgeStep` against the finished map. */
  method ExportEdges(fetch: (string, set<string>, bool) -> seq<Json>, hooks: Hooks, lookup: EndpointLookup,
                     cols: seq<(string, set<string>)>, isKeep: bool, s0: ExportState)
    returns (edges: seq<Edge>, failure: Option<Error>)
    requires s0.failure.None?
    ensures EdgeFold(hooks, lookup, s0, Fetched(fetch, cols, isKeep)) == s0.(edges := edges, failure := failure)
  {
    edges, failure := s0.edges, None;
    for i := 0 to |cols|
      invariant EdgeFold(hooks, lookup, s0, Fetched(fetch, cols[..i], isKeep)) == s0.(edges := edges, failure := failure)
    {
      var (col, atribs) := cols[i];
      var docs := fetch(col, atribs, isKeep);
      edges, failure := ExportCollectionEdges(hooks, lookup, s0, Fetched(fetch, cols[..i], isKeep), col, docs, edges, failure);
      assert cols[..i + 1][..i] == cols[..i];
    }
    assert cols[..|cols|] == cols;
  }

  /** The inner edge loop, over the documents of one collection. */
  method ExportCollectionEdges(hooks: Hooks, lookup: EndpointLookup, s0: ExportState, ghost before: seq<(string, Json)>,
                               col: string, docs: seq<Json>, edges: seq<Edge>, failure: Option<Error>)
    returns (edges': seq<Edge>, failure': Option<Error>)
    requires EdgeFold(hooks, lookup, s0, before) == s0.(edges := edges, failure := failure)
    ensures EdgeFold(hooks, lookup, s0, before + Tag(col, docs)) == s0.(edges := edges', failure := failure')
  {
    edges', failure' := edges, failure;
    assert before + Tag(col, docs[..0]) == before;
    for k := 0 to |docs|
      invariant EdgeFold(hooks, lookup, s0, before + Tag(col, docs[..k])) == s0.(edges := edges', failure := failure')
    {
      var doc := docs[k];
      ghost var prefix := before + Tag(col, docs[..k]);
      assert before + Tag(col, docs[..k + 1]) == prefix + [(col, doc)];
      EdgeFoldSnoc(hooks, lookup, s0, prefix, col, doc);
      if failure'.None? {
        edges', failure' := ExportEdge(hooks, lookup, s0, edges', col, doc);
      }
    }
    assert docs[..|docs|] == docs;
  }

  /** The edge fold over docs and one more document. */
  lemma EdgeFoldSnoc(hooks: Hooks, lookup: EndpointLookup, s0: ExportState, docs: seq<(string, Json)>, col: string, doc: Json)
    ensures var s := EdgeFold(hooks, lookup, s0, docs);
      EdgeFold(hooks, lookup, s0, docs + [(col, doc)]) == if s.failure.Some? then s else EdgeStep(hooks, lookup, s, col, doc)
  {
    assert (docs + [(col, doc)])[..|docs|] == docs;
  }

  /** The export as one method: validate the metagraph, run the vertex loops
      from the map m0, then the edge loops. Gives the result and the map as the
      run left it, also when it raised. */
  method RunExport(fetch: (string, set<string>, bool) -> seq<Json>, hooks: Hooks, lookup: EndpointLookup,
                   m0: map<PyValue, AdbMapEntry>, mg: Metagraph, isKeep: bool)
    returns (r: Result<ExportGraph>, adbMap: map<PyValue, AdbMapEntry>)
    ensures var s := ExportSpec(hooks, lookup, m0, fetch, mg, isKeep);
      r == ExportResult(s) && adbMap == s.adbMap
  {
    var check := ValidateAttributes("graph", mg.fields, MetagraphAtribs);
    if check.Fail? {
      return Err(check.error), m0;
    }
    var nodes, failure;
    adbMap, nodes, failure := ExportVertices(fetch, hooks, mg.vertexCollections, isKeep, m0);
    if failure.Some? {
      return Err(failure.value), adbMap;
    }
    var edges;
    edges, failure := ExportEdges(fetch, hooks, lookup, mg.edgeCollections, isKeep, ExportState(adbMap, nodes, [], None));
    if failure.Some? {
      return Err(failure.value), adbMap;
    }
    return Ok(ExportGraph(nodes, edges)), adbMap;
  }
}
