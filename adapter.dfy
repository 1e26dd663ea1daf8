/**
 * `ADBNX_Adapter` (adbnx_adapter/adapter.py): a database and a controller, and
 * the two directions of the translation, ArangoDB to NetworkX and NetworkX to
 * ArangoDB.
 */
module AdbnxAdapter {
  import opened PyValues
  import opened ControllerHooks
  import opened Validation
  import opened Store
  import opened NxGraphs
  import opened Import
  import opened Export
  import Controller

  /** `ADBNX_Adapter`: a database and a controller. */
  class Adapter {
    const db: Database
    const cntrl: Hooks

    constructor (db: Database, cntrl: Hooks)
      ensures this.db == db && this.cntrl == cntrl
    {
      this.db := db;
      this.cntrl := cntrl;
    }

    /** `arangodb_to_networkx(name, metagraph, is_keep)`: the metagraph is
        validated, then the loops run on a fresh `adb_map`, with strict
        endpoint lookup; the result is `ExportSpec`'s. */
    method ArangodbToNetworkx(mg: Metagraph, isKeep: bool) returns (r: Result<ExportGraph>)
      ensures r == ExportResult(ExportSpec(cntrl, Subscript, map[], db.fetch, mg, isKeep))
    {
      var adbMap;
      r, adbMap := RunExport(db.fetch, cntrl, Subscript, map[], mg, isKeep);
    }

    /** `arangodb_collections_to_networkx(name, v_cols, e_cols)`: every
        collection with an empty attribute set, exported with is_keep off. The
        sets are given in the order Python iterates them. */
    method ArangodbCollectionsToNetworkx(vCols: seq<string>, eCols: seq<string>) returns (r: Result<ExportGraph>)
      ensures r == ExportResult(ExportSpec(cntrl, Subscript, map[], db.fetch, CollectionsMetagraph(vCols, eCols), false))
    {
      r := ArangodbToNetworkx(CollectionsMetagraph(vCols, eCols), false);
    }

    /** `networkx_to_arangodb(name, nx_graph, edge_definitions, batch_size,
        keyify_nodes, keyify_edges)`. The ghost result cfg names the
        collections `set.pop()` picked. An invalid edge definition raises before
        anything is done; a homogeneous graph without vertex collection raises
        at the pop; otherwise the graph's dictionaries end as `ImportSpec`
        says, and on success every routed document has reached its collection
        exactly once and in order, whatever batchSize is. */
    method NetworkxToArangodb(g: NxGraph, eds: seq<EdgeDefinition>, batchSize: int, keyifyNodes: bool, keyifyEdges: bool)
      returns (r: Outcome, ghost cfg: ImportConfig)
      requires g.Valid()
      modifies g, db
      ensures cfg.hooks == cntrl && cfg.keyifyNodes == keyifyNodes && cfg.keyifyEdges == keyifyEdges
      ensures ValidateEdgeDefinitions(eds).Fail? ==>
        r == ValidateEdgeDefinitions(eds) && g.Value() == old(g.Value()) && db.flushes == old(db.flushes)
      ensures ValidateEdgeDefinitions(eds).Pass? && Homogeneous(eds) && VertexCollections(eds) == {} ==>
        r == Fail(KeyError(PyStr("pop from an empty set"))) && g.Value() == old(g.Value()) && db.flushes == old(db.flushes)
      ensures ValidateEdgeDefinitions(eds).Pass? && !(Homogeneous(eds) && VertexCollections(eds) == {}) ==>
        FixedChoice(eds, cfg.fixedV, cfg.fixedE)
        && var s := ImportSpec(old(g.Value()), cfg);
        g.order == old(g.order) && g.data == s.data && g.edges == s.edges
        && r == (if s.failure.None? then Pass else Fail(s.failure.value))
        && (s.failure.None? ==> forall c :: Sent(db.flushes, c) == Sent(old(db.flushes), c) + DocsFor(s.routed, c))
        && (forall c :: Sent(db.flushes, c) <= Sent(old(db.flushes), c) + DocsFor(s.routed, c))
    {
      cfg := ImportConfig(None, None, cntrl, keyifyNodes, keyifyEdges);
      var check := CheckEdgeDefinitions(eds);
      if check.Fail? {
        return check, cfg;
      }
      var vCols, eCols := CollectCollections(eds);
      var isHomogeneous := |vCols + eCols| == 2;
      var fixedV: Option<string> := None;
      var fixedE: Option<string> := None;
      if isHomogeneous {
        if vCols == {} {
          return Fail(KeyError(PyStr("pop from an empty set"))), cfg;
        }
        var c :| c in vCols;
        HomogeneousHasEdgeCollection(eds);
        var d :| d in eCols;
        fixedV, fixedE := Some(c), Some(d);
      }
      var config := ImportConfig(fixedV, fixedE, cntrl, keyifyNodes, keyifyEdges);
      cfg := config;
      var failure, routed := RunImport(g, config, db, batchSize);
      r := if failure.None? then Pass else Fail(failure.value);
    }
  }

  /** With the controller shipped in controller.py, whose
      `_prepare_arangodb_vertex` returns None, every node the export hands to
      `add_nodes_from` has the id None. */
  lemma DefaultControllerNodeIds(fetch: (string, set<string>, bool) -> seq<Json>, mg: Metagraph, isKeep: bool)
    requires ExportSpec(Controller.AsCalledByAdapter(), Subscript, map[], fetch, mg, isKeep).failure.None?
    ensures var s := ExportSpec(Controller.AsCalledByAdapter(), Subscript, map[], fetch, mg, isKeep);
      forall t :: 0 <= t < |s.nodes| ==> s.nodes[t].0 == PyNone
  {
    var hooks := Controller.AsCalledByAdapter();
    var docs := Fetched(fetch, mg.vertexCollections, isKeep);
    assert VertexFold(hooks, Empty, docs).failure.None?;
    VertexFoldNodes(hooks, map[], docs);
  }

  /** With `_prepare_arangodb_vertex` as documented (the vertex's `_id` is the
      node id), every node the export hands to `add_nodes_from` is the fetched
      vertex under its own `_id`, in the order fetched. */
  lemma DocumentedControllerNodeIds(fetch: (string, set<string>, bool) -> seq<Json>, mg: Metagraph, isKeep: bool)
    requires ExportSpec(Controller.AsDocumented(), Subscript, map[], fetch, mg, isKeep).failure.None?
    ensures var s := ExportSpec(Controller.AsDocumented(), Subscript, map[], fetch, mg, isKeep);
      var docs := Fetched(fetch, mg.vertexCollections, isKeep);
      |s.nodes| == |docs|
      && forall t :: 0 <= t < |docs| ==> "_id" in docs[t].1 && s.nodes[t] == (docs[t].1["_id"], docs[t].1)
  {
    var hooks := Controller.AsDocumented();
    var docs := Fetched(fetch, mg.vertexCollections, isKeep);
    assert VertexFold(hooks, Empty, docs).failure.None?;
    VertexFoldNodes(hooks, map[], docs);
  }
}
