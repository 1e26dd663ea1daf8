/**
 * The first adapter (arangoDB_networkx_adapter.py). It connects when the
 * connection dictionary passes `is_valid_conn`, and `create_networkx_graph`
 * loads every vertex collection, and then every edge collection, of a graph
 * description into a NetworkX DiGraph, fetching each collection with an AQL
 * projection query. The database that runs the queries is a function from
 * query text to the documents the cursor yields.
 */
module FirstAdapter {
  import opened PyValues
  import opened Validation
  import opened Connections

  // ---------------------------------------------------------------------------
  // Checking the dictionaries.

  /** What `is_valid_conn` accepts: username, password and dbName present. A
      missing hostname is only reported. */
  predicate ConnAccepted(conn: set<string>) {
    "username" in conn && "password" in conn && "dbName" in conn
  }

  /** `is_valid_conn(conn)`. */
  method IsValidConn(conn: set<string>) returns (valid: bool)
    ensures valid <==> ConnAccepted(conn)
    ensures ValidateAttributes("connection", conn, ConnectionAtribs).Pass? ==> valid
  {
    valid := true;
    // A missing "hostname" prints a warning and leaves valid alone.
    if "username" !in conn {
      valid := false;
    }
    if "password" !in conn {
      valid := false;
    }
    if "dbName" !in conn {
      valid := false;
    }
  }

  /** `is_valid_graph_attributes(graph_config)`: both collection lists are
      present, which is the check the later adapters make with
      `__validate_attributes`. */
  method IsValidGraphAttributes(graphConfig: set<string>) returns (valid: bool)
    ensures valid <==> "vertexCollections" in graphConfig && "edgeCollections" in graphConfig
    ensures valid <==> ValidateAttributes("graph", graphConfig, MetagraphAtribs).Pass?
  {
    valid := true;
    if "vertexCollections" !in graphConfig {
      valid := false;
    }
    if "edgeCollections" !in graphConfig {
      valid := false;
    }
  }

  // ---------------------------------------------------------------------------
  // Connecting.

  /** The connection `__init__` makes from a dictionary that `is_valid_conn`
      accepts: `conn["hostname"]` is read first, then port (`str(conn['port'])`
      or '8529') and protocol (`conn['protocol']` or "https"), and the URL is
      `protocol + "://" + hostname + ":" + port`. A dictionary that is not
      accepted gives no database (None). */
  function Init(conn: Json): (r: Result<Option<Connection>>)
    ensures !ConnAccepted(conn.Keys) ==> r == Ok(None)
    ensures r.Ok? && r.value.Some? ==>
      (ConnAccepted(conn.Keys) && "hostname" in conn
       && r.value.value.dbName == conn["dbName"] && r.value.value.username == conn["username"]
       && r.value.value.password == conn["password"])
  {
    if !ConnAccepted(conn.Keys) then Ok(None)
    else
      var host :- Get(conn, "hostname");
      var port := if "port" in conn then Str(conn["port"]) else "8529";
      var protocol := if "protocol" in conn then conn["protocol"] else PyStr("https");
      var p :- AsStr(protocol);
      var h :- AsStr(host);
      Ok(Some(Connection(p + "://" + h + ":" + port, conn["dbName"], conn["username"], conn["password"])))
  }

  /** On a dictionary with all four keys the first adapter connects exactly as
      the later ones do. */
  lemma InitAgreesWithConnect(conn: Json)
    requires ConnectionAtribs <= conn.Keys
    ensures Init(conn) == if Connect(conn).Ok? then Ok(Some(Connect(conn).value)) else Err(Connect(conn).error)
  {
    assert "hostname" in conn && "username" in conn && "password" in conn && "dbName" in conn;
    if "port" !in conn {
      assert NatToDecimal(8) == "8";
      assert NatToDecimal(85) == "85";
      assert NatToDecimal(852) == "852";
      assert Str(PyInt(8529)) == "8529";
    }
  }

  /** As written, `is_valid_conn` lets a dictionary without hostname through,
      and `__init__` then fails on `conn["hostname"]`. */
  lemma InitWithoutHostname(conn: Json)
    requires ConnAccepted(conn.Keys) && "hostname" !in conn
    ensures Init(conn) == Err(KeyError(PyStr("hostname")))
  {
  }

  /** A concrete dictionary that shows it: credentials and a database name,
      no hostname. */
  lemma InitWithoutHostnameExample()
    ensures var conn := map["username" := PyStr("root"), "password" := PyStr("pw"), "dbName" := PyStr("db")];
      ConnAccepted(conn.Keys) && Init(conn) == Err(KeyError(PyStr("hostname")))
  {
    var conn := map["username" := PyStr("root"), "password" := PyStr("pw"), "dbName" := PyStr("db")];
    assert conn.Keys == {"username", "password", "dbName"};
    InitWithoutHostname(conn);
  }

  /** The evidently intended check: the four keys the later adapters require. */
  predicate ConnAcceptedFixed(conn: set<string>) {
    ConnectionAtribs <= conn
  }

  /** `__init__` with the intended check: an accepted dictionary never fails
      on a missing key, only (like the later adapters) on a protocol or host
      that is not a str. */
  function InitFixed(conn: Json): (r: Result<Option<Connection>>)
    ensures !ConnAcceptedFixed(conn.Keys) ==> r == Ok(None)
    ensures r.Err? ==> r.error == TypeError
    ensures ConnAcceptedFixed(conn.Keys) ==> r == Init(conn)
  {
    if !ConnAcceptedFixed(conn.Keys) then Ok(None) else Init(conn)
  }

  // ---------------------------------------------------------------------------
  // The projection query.

  /** `s + ':' + 'doc.' + s`. */
  function Projection(attr: string): string {
    attr + ":" + "doc." + attr
  }

  /** `[s + ':' + 'doc.' + s for s in v]`. */
  function Projections(attrs: seq<string>): (ps: seq<string>)
    ensures |ps| == |attrs| && forall i :: 0 <= i < |attrs| ==> ps[i] == Projection(attrs[i])
    decreases |attrs|
  {
    if attrs == [] then [] else [Projection(attrs[0])] + Projections(attrs[1..])
  }

  /** The query for collection col keeping attributes attrs:
      `"FOR doc in %s " % col + "RETURN { " + ",".join(cspl) + "}"`, where cspl
      is one projection per attribute followed by `_id: doc._id`. */
  function ProjectionQuery(col: string, attrs: seq<string>): string {
    "FOR doc in " + col + " " + "RETURN { " + Join(",", Projections(attrs) + ["_id: doc._id"]) + "}"
  }

  /** Each attribute projected under its own name and followed by a comma. */
  function ProjectedList(attrs: seq<string>): string
    decreases |attrs|
  {
    if attrs == [] then "" else attrs[0] + ":doc." + attrs[0] + "," + ProjectedList(attrs[1..])
  }

  /** Joining the projections and a last item with commas puts a comma after
      each projection. */
  lemma {:induction false} JoinProjections(attrs: seq<string>, last: string)
    ensures Join(",", Projections(attrs) + [last]) == ProjectedList(attrs) + last
    decreases |attrs|
  {
    if attrs != [] {
      JoinProjections(attrs[1..], last);
      var ps := Projections(attrs) + [last];
      assert ps[1..] == Projections(attrs[1..]) + [last];
      assert Projection(attrs[0]) == attrs[0] + ":doc." + attrs[0];
    }
  }

  /** Every attribute is projected under its own name, and `_id` is always
      projected, last. */
  lemma ProjectionQueryShape(col: string, attrs: seq<string>)
    ensures ProjectionQuery(col, attrs) == "FOR doc in " + col + " RETURN { " + ProjectedList(attrs) + "_id: doc._id}"
  {
    JoinProjections(attrs, "_id: doc._id");
  }

  // ---------------------------------------------------------------------------
  // The DiGraph that is built.

  /** The attribute dictionary of a node. `add_node(n, attr_dict=doc)` is a
      keyword argument of NetworkX 2, so the only attribute this adapter sets
      is "attr_dict", whose value is a whole document. */
  type NodeAttrs = map<string, Json>

  /** A NetworkX DiGraph: the attributes of each node, and its edges (a
      DiGraph keeps one edge per ordered pair). */
  datatype DiGraph = DiGraph(nodes: map<NxId, NodeAttrs>, edges: set<(NxId, NxId)>)

  /** What a DiGraph always is: both endpoints of every edge are nodes. */
  ghost predicate Consistent(g: DiGraph) {
    forall e :: e in g.edges ==> e.0 in g.nodes && e.1 in g.nodes
  }

  /** `g.add_node(n, **attrs)`: a new node gets the attributes; an existing
      one has them updated. */
  function AddNode(g: DiGraph, n: NxId, attrs: NodeAttrs): (r: DiGraph)
    ensures r.nodes.Keys == g.nodes.Keys + {n} && r.edges == g.edges
    ensures r.nodes[n] == if n in g.nodes then g.nodes[n] + attrs else attrs
  {
    if n in g.nodes then g.(nodes := g.nodes[n := g.nodes[n] + attrs])
    else g.(nodes := g.nodes[n := attrs])
  }

  /** `g.add_edge(u, v)`: missing endpoints become nodes without attributes,
      and the edge is added unless the graph has it already. */
  function AddEdge(g: DiGraph, u: NxId, v: NxId): (r: DiGraph)
    ensures r.nodes.Keys == g.nodes.Keys + {u, v}
    ensures r.edges == g.edges + {(u, v)}
  {
    var withU := if u in g.nodes then g.nodes else g.nodes[u := map[]];
    var withV := if v in withU then withU else withU[v := map[]];
    DiGraph(withV, g.edges + {(u, v)})
  }

  lemma AddNodeConsistent(g: DiGraph, n: NxId, attrs: NodeAttrs)
    requires Consistent(g)
    ensures Consistent(AddNode(g, n, attrs))
  {
  }

  /** `add_edge` leaves the attributes of existing nodes alone. */
  lemma AddEdgeKeepsAttributes(g: DiGraph, u: NxId, v: NxId)
    ensures forall n :: n in g.nodes ==> AddEdge(g, u, v).nodes[n] == g.nodes[n]
  {
  }

  lemma AddEdgeConsistent(g: DiGraph, u: NxId, v: NxId)
    requires Consistent(g)
    ensures Consistent(AddEdge(g, u, v))
  {
  }

  /** The KeyError that `doc['_id']` raises for the first of the first n
      documents without one, if any. */
  function VertexDocsError(docs: seq<Json>, n: nat): (r: Option<Error>)
    requires n <= |docs|
    ensures r.Some? ==> r.value == KeyError(PyStr("_id"))
    decreases n
  {
    if n == 0 then None
    else if VertexDocsError(docs, n - 1).Some? then VertexDocsError(docs, n - 1)
    else if "_id" !in docs[n - 1] then Some(KeyError(PyStr("_id")))
    else None
  }

  /** The vertex documents raise exactly when one of them has no `_id`. */
  lemma {:induction false} VertexDocsErrorExact(docs: seq<Json>, n: nat)
    requires n <= |docs|
    ensures VertexDocsError(docs, n).None? <==> forall k :: 0 <= k < n ==> "_id" in docs[k]
    decreases n
  {
    if n > 0 {
      VertexDocsErrorExact(docs, n - 1);
    }
  }

  /** `g.add_node(doc['_id'], attr_dict=doc)` for each of the first n
      documents that has an `_id` (all of them, where it is used). */
  function AddNodes(g: DiGraph, docs: seq<Json>, n: nat): DiGraph
    requires n <= |docs|
    decreases n
  {
    if n == 0 then g
    else if "_id" !in docs[n - 1] then AddNodes(g, docs, n - 1)
    else AddNode(AddNodes(g, docs, n - 1), docs[n - 1]["_id"], map["attr_dict" := docs[n - 1]])
  }

  /** `for doc in cursor: g.add_node(doc['_id'], attr_dict=doc)`. A document
      without `_id` raises, and the graph built so far is a local of
      `create_networkx_graph` that nothing sees again, so the outcome is the
      error alone. */
  function LoadVertices(g: DiGraph, docs: seq<Json>): (r: Result<DiGraph>)
    ensures r.Err? ==> r.error == KeyError(PyStr("_id"))
  {
    match VertexDocsError(docs, |docs|)
    case Some(e) => Err(e)
    case None => Ok(AddNodes(g, docs, |docs|))
  }

  /** Both endpoints of an edge document are there to read. */
  predicate HasEndpoints(doc: Json) {
    "_from" in doc && "_to" in doc
  }

  /** The KeyError that `doc['_from']` or `doc['_to']` raises for the first
      of the first n documents missing one of them, if any does. */
  function EdgeDocsError(docs: seq<Json>, n: nat): (r: Option<Error>)
    requires n <= |docs|
    ensures r.Some? ==> r.value == KeyError(PyStr("_from")) || r.value == KeyError(PyStr("_to"))
    decreases n
  {
    if n == 0 then None
    else if EdgeDocsError(docs, n - 1).Some? then EdgeDocsError(docs, n - 1)
    else if "_from" !in docs[n - 1] then Some(KeyError(PyStr("_from")))
    else if "_to" !in docs[n - 1] then Some(KeyError(PyStr("_to")))
    else None
  }

  /** The edge documents raise exactly when one of them misses `_from` or
      `_to`. */
  lemma {:induction false} EdgeDocsErrorExact(docs: seq<Json>, n: nat)
    requires n <= |docs|
    ensures EdgeDocsError(docs, n).None? <==> forall k :: 0 <= k < n ==> HasEndpoints(docs[k])
    decreases n
  {
    if n > 0 {
      EdgeDocsErrorExact(docs, n - 1);
    }
  }

  /** `g.add_edge(doc['_from'], doc['_to'])` for each of the first n
      documents that has both endpoints (all of them, where it is used). */
  function AddEdges(g: DiGraph, docs: seq<Json>, n: nat): DiGraph
    requires n <= |docs|
    decreases n
  {
    if n == 0 then g
    else if !HasEndpoints(docs[n - 1]) then AddEdges(g, docs, n - 1)
    else AddEdge(AddEdges(g, docs, n - 1), docs[n - 1]["_from"], docs[n - 1]["_to"])
  }

  /** `for doc in cursor: g.add_edge(doc['_from'], doc['_to'])`. A document
      missing an endpoint raises, and the graph built so far is a local of
      `create_networkx_graph` that nothing sees again, so the outcome is the
      error alone. */
  function LoadEdges(g: DiGraph, docs: seq<Json>): (r: Result<DiGraph>)
    ensures r.Err? ==> r.error == KeyError(PyStr("_from")) || r.error == KeyError(PyStr("_to"))
  {
    match EdgeDocsError(docs, |docs|)
    case Some(e) => Err(e)
    case None => Ok(AddEdges(g, docs, |docs|))
  }

  /** What loading one cursor raises, if anything: it depends on the
      documents alone. */
  function BatchError(docs: seq<Json>, vertices: bool): Option<Error> {
    if vertices then VertexDocsError(docs, |docs|) else EdgeDocsError(docs, |docs|)
  }

  /** The graph after loading one cursor that raises nothing. */
  function Build(g: DiGraph, docs: seq<Json>, vertices: bool): DiGraph {
    if vertices then AddNodes(g, docs, |docs|) else AddEdges(g, docs, |docs|)
  }

  /** The error of the first of the first n cursors that raises, if any. */
  function BatchesError(batches: seq<seq<Json>>, vertices: bool, n: nat): Option<Error>
    requires n <= |batches|
    decreases n
  {
    if n == 0 then None
    else if BatchesError(batches, vertices, n - 1).Some? then BatchesError(batches, vertices, n - 1)
    else BatchError(batches[n - 1], vertices)
  }

  /** The graph after loading the first n cursors, none of which raises. */
  function BuildBatches(g: DiGraph, batches: seq<seq<Json>>, vertices: bool, n: nat): DiGraph
    requires n <= |batches|
    decreases n
  {
    if n == 0 then g else Build(BuildBatches(g, batches, vertices, n - 1), batches[n - 1], vertices)
  }

  /** The first n cursors, each loaded as vertices or as edges: the first
      error raised, or the graph with all of them added. */
  function LoadBatches(g: DiGraph, batches: seq<seq<Json>>, vertices: bool, n: nat): Result<DiGraph>
    requires n <= |batches|
  {
    match BatchesError(batches, vertices, n)
    case Some(e) => Err(e)
    case None => Ok(BuildBatches(g, batches, vertices, n))
  }

  /** What the query for each of the collections cols returns. */
  function Fetched(execute: string -> seq<Json>, cols: seq<(string, seq<string>)>): (batches: seq<seq<Json>>)
    ensures |batches| == |cols|
    ensures forall i :: 0 <= i < |cols| ==> batches[i] == execute(ProjectionQuery(cols[i].0, cols[i].1))
  {
    seq(|cols|, i requires 0 <= i < |cols| => execute(ProjectionQuery(cols[i].0, cols[i].1)))
  }

  /** The empty DiGraph `nx.DiGraph()`. */
  function EmptyDiGraph(): (g: DiGraph)
    ensures Consistent(g) && g.nodes == map[] && g.edges == {}
  {
    DiGraph(map[], {})
  }

  /** `create_networkx_graph`: without both collection lists the function
      reaches `return g` with g unbound; otherwise all vertex collections are
      loaded, then all edge collections. */
  function CreateSpec(execute: string -> seq<Json>, graphAttributes: map<string, seq<(string, seq<string>)>>)
    : (r: Result<DiGraph>)
    ensures !("vertexCollections" in graphAttributes && "edgeCollections" in graphAttributes) ==> r == Err(UnboundLocalError)
  {
    if !("vertexCollections" in graphAttributes && "edgeCollections" in graphAttributes) then Err(UnboundLocalError)
    else
      var vBatches := Fetched(execute, graphAttributes["vertexCollections"]);
      var eBatches := Fetched(execute, graphAttributes["edgeCollections"]);
      var g :- LoadBatches(EmptyDiGraph(), vBatches, true, |vBatches|);
      LoadBatches(g, eBatches, false, |eBatches|)
  }

  // ---------------------------------------------------------------------------
  // Properties of the graph that is built.

  /** Adding vertex documents keeps the edges of the graph and its nodes, and
      adds a node for the `_id` of each document. */
  lemma {:induction false} AddNodesAdds(g: DiGraph, docs: seq<Json>, n: nat)
    requires n <= |docs|
    ensures var r := AddNodes(g, docs, n);
      g.nodes.Keys <= r.nodes.Keys && r.edges == g.edges
      && forall k :: 0 <= k < n && "_id" in docs[k] ==> docs[k]["_id"] in r.nodes
    decreases n
  {
    if n > 0 {
      AddNodesAdds(g, docs, n - 1);
    }
  }

  /** Adding vertex documents keeps a DiGraph consistent. */
  lemma {:induction false} AddNodesConsistent(g: DiGraph, docs: seq<Json>, n: nat)
    requires n <= |docs| && Consistent(g)
    ensures Consistent(AddNodes(g, docs, n))
    decreases n
  {
    if n > 0 {
      AddNodesConsistent(g, docs, n - 1);
      if "_id" in docs[n - 1] {
        AddNodeConsistent(AddNodes(g, docs, n - 1), docs[n - 1]["_id"], map["attr_dict" := docs[n - 1]]);
      }
    }
  }

  /** A node keeps, under "attr_dict", the last of the first n documents that
      carries its `_id`: a later document with the same `_id` replaces an
      earlier one. */
  lemma {:induction false} AddNodesLastWins(g: DiGraph, docs: seq<Json>, n: nat, k: nat)
    requires k < n <= |docs| && "_id" in docs[k]
    requires forall j :: k < j < n && "_id" in docs[j] ==> docs[j]["_id"] != docs[k]["_id"]
    ensures var r := AddNodes(g, docs, n);
      docs[k]["_id"] in r.nodes && "attr_dict" in r.nodes[docs[k]["_id"]]
      && r.nodes[docs[k]["_id"]]["attr_dict"] == docs[k]
    decreases n
  {
    if k < n - 1 {
      AddNodesLastWins(g, docs, n - 1, k);
    }
  }

  /** Loading one cursor of vertex documents keeps the graph consistent, keeps
      its nodes and edges, and adds a node for each document. */
  lemma LoadVerticesAdds(g: DiGraph, docs: seq<Json>)
    requires LoadVertices(g, docs).Ok?
    ensures var r := LoadVertices(g, docs).value;
      (Consistent(g) ==> Consistent(r)) && g.nodes.Keys <= r.nodes.Keys && r.edges == g.edges
      && forall k :: 0 <= k < |docs| ==> ("_id" in docs[k] && docs[k]["_id"] in r.nodes)
  {
    AddNodesAdds(g, docs, |docs|);
    VertexDocsErrorExact(docs, |docs|);
    if Consistent(g) {
      AddNodesConsistent(g, docs, |docs|);
    }
  }

  /** Adding edge documents keeps the nodes and edges of the graph and adds
      an edge from `_from` to `_to` for each document. */
  lemma {:induction false} AddEdgesAdds(g: DiGraph, docs: seq<Json>, n: nat)
    requires n <= |docs|
    ensures var r := AddEdges(g, docs, n);
      g.nodes.Keys <= r.nodes.Keys && g.edges <= r.edges
      && forall k :: 0 <= k < n && HasEndpoints(docs[k]) ==> (docs[k]["_from"], docs[k]["_to"]) in r.edges
    decreases n
  {
    if n > 0 {
      AddEdgesAdds(g, docs, n - 1);
    }
  }

  /** Adding edge documents keeps a DiGraph consistent. */
  lemma {:induction false} AddEdgesConsistent(g: DiGraph, docs: seq<Json>, n: nat)
    requires n <= |docs|
    requires Consistent(g)
    ensures Consistent(AddEdges(g, docs, n))
    decreases n
  {
    if n > 0 {
      AddEdgesConsistent(g, docs, n - 1);
      if HasEndpoints(docs[n - 1]) {
        AddEdgeConsistent(AddEdges(g, docs, n - 1), docs[n - 1]["_from"], docs[n - 1]["_to"]);
      }
    }
  }

  /** Loading vertex batches keeps the graph consistent, its nodes and its
      edges, and adds every document of every batch as a node. */
  lemma {:induction false} VertexBatchesAdd(g: DiGraph, batches: seq<seq<Json>>, n: nat)
    requires n <= |batches|
    ensures var r := BuildBatches(g, batches, true, n);
      (Consistent(g) ==> Consistent(r)) && g.nodes.Keys <= r.nodes.Keys && r.edges == g.edges
      && forall i, k :: 0 <= i < n && 0 <= k < |batches[i]| && "_id" in batches[i][k] ==> batches[i][k]["_id"] in r.nodes
    decreases n
  {
    if n > 0 {
      VertexBatchesAdd(g, batches, n - 1);
      var g1 := BuildBatches(g, batches, true, n - 1);
      AddNodesAdds(g1, batches[n - 1], |batches[n - 1]|);
      if Consistent(g) {
        AddNodesConsistent(g1, batches[n - 1], |batches[n - 1]|);
      }
    }
  }

  /** Loading edge batches keeps the graph consistent, its nodes and its
      edges, and adds every document of every batch as an edge. */
  lemma {:induction false} EdgeBatchesAdd(g: DiGraph, batches: seq<seq<Json>>, n: nat)
    requires n <= |batches|
    ensures var r := BuildBatches(g, batches, false, n);
      (Consistent(g) ==> Consistent(r)) && g.nodes.Keys <= r.nodes.Keys && g.edges <= r.edges
      && forall i, k :: 0 <= i < n && 0 <= k < |batches[i]| && HasEndpoints(batches[i][k]) ==>
           (batches[i][k]["_from"], batches[i][k]["_to"]) in r.edges
    decreases n
  {
    if n > 0 {
      EdgeBatchesAdd(g, batches, n - 1);
      var g1 := BuildBatches(g, batches, false, n - 1);
      AddEdgesAdds(g1, batches[n - 1], |batches[n - 1]|);
      if Consistent(g) {
        AddEdgesConsistent(g1, batches[n - 1], |batches[n - 1]|);
      }
    }
  }

  /** The vertex batches raise exactly when some document has no `_id`. */
  lemma {:induction false} VertexBatchesErrorExact(batches: seq<seq<Json>>, n: nat)
    requires n <= |batches|
    ensures BatchesError(batches, true, n).None?
      <==> forall i, k :: 0 <= i < n && 0 <= k < |batches[i]| ==> "_id" in batches[i][k]
    decreases n
  {
    if n > 0 {
      VertexBatchesErrorExact(batches, n - 1);
      VertexDocsErrorExact(batches[n - 1], |batches[n - 1]|);
    }
  }

  /** The edge batches raise exactly when some document misses an endpoint. */
  lemma {:induction false} EdgeBatchesErrorExact(batches: seq<seq<Json>>, n: nat)
    requires n <= |batches|
    ensures BatchesError(batches, false, n).None?
      <==> forall i, k :: 0 <= i < n && 0 <= k < |batches[i]| ==> HasEndpoints(batches[i][k])
    decreases n
  {
    if n > 0 {
      EdgeBatchesErrorExact(batches, n - 1);
      EdgeDocsErrorExact(batches[n - 1], |batches[n - 1]|);
    }
  }

  /** Loading cursor i on top of the graph built from the cursors before it
      either raises the error of the first i + 1 cursors or builds their
      graph. */
  lemma LoadBatchesNext(g: DiGraph, batches: seq<seq<Json>>, vertices: bool, i: nat, h: DiGraph, loaded: Result<DiGraph>)
    requires i < |batches| && BatchesError(batches, vertices, i).None? && h == BuildBatches(g, batches, vertices, i)
    requires loaded == if vertices then LoadVertices(h, batches[i]) else LoadEdges(h, batches[i])
    ensures loaded.Err? ==> BatchesError(batches, vertices, i + 1) == Some(loaded.error)
    ensures loaded.Ok? ==>
      BatchesError(batches, vertices, i + 1).None? && loaded.value == BuildBatches(g, batches, vertices, i + 1)
  {
  }

  /** Once one of the first n cursors raised, the first m raise the same
      error. */
  lemma {:induction false} BatchesErrorSticky(batches: seq<seq<Json>>, vertices: bool, n: nat, m: nat)
    requires n <= m <= |batches| && BatchesError(batches, vertices, n).Some?
    ensures BatchesError(batches, vertices, m) == BatchesError(batches, vertices, n)
    decreases m
  {
    if m > n {
      BatchesErrorSticky(batches, vertices, n, m - 1);
    }
  }

  /** Loading one cursor of edge documents keeps the graph consistent and
      keeps its nodes and edges, and adds an edge for each document. */
  lemma LoadEdgesAdds(g: DiGraph, docs: seq<Json>)
    requires LoadEdges(g, docs).Ok?
    ensures var r := LoadEdges(g, docs).value;
      (Consistent(g) ==> Consistent(r)) && g.nodes.Keys <= r.nodes.Keys && g.edges <= r.edges
      && forall k :: 0 <= k < |docs| ==> (HasEndpoints(docs[k]) && (docs[k]["_from"], docs[k]["_to"]) in r.edges)
  {
    AddEdgesAdds(g, docs, |docs|);
    EdgeDocsErrorExact(docs, |docs|);
    if Consistent(g) {
      AddEdgesConsistent(g, docs, |docs|);
    }
  }

  /** A graph that was built is a consistent DiGraph holding every vertex
      document as a node under its `_id` and every edge document as an edge
      between two nodes. */
  lemma CreateLoadsEverything(execute: string -> seq<Json>, graphAttributes: map<string, seq<(string, seq<string>)>>)
    requires CreateSpec(execute, graphAttributes).Ok?
    ensures var g := CreateSpec(execute, graphAttributes).value;
      var vBatches := Fetched(execute, graphAttributes["vertexCollections"]);
      var eBatches := Fetched(execute, graphAttributes["edgeCollections"]);
      Consistent(g)
      && (forall i, k :: 0 <= i < |vBatches| && 0 <= k < |vBatches[i]| ==>
            "_id" in vBatches[i][k] && vBatches[i][k]["_id"] in g.nodes)
      && (forall i, k :: 0 <= i < |eBatches| && 0 <= k < |eBatches[i]| ==>
            var doc := eBatches[i][k];
            "_from" in doc && "_to" in doc && (doc["_from"], doc["_to"]) in g.edges
            && doc["_from"] in g.nodes && doc["_to"] in g.nodes)
  {
    var vBatches := Fetched(execute, graphAttributes["vertexCollections"]);
    var eBatches := Fetched(execute, graphAttributes["edgeCollections"]);
    var gV := BuildBatches(EmptyDiGraph(), vBatches, true, |vBatches|);
    VertexBatchesErrorExact(vBatches, |vBatches|);
    VertexBatchesAdd(EmptyDiGraph(), vBatches, |vBatches|);
    EdgeBatchesErrorExact(eBatches, |eBatches|);
    EdgeBatchesAdd(gV, eBatches, |eBatches|);
  }

  /** The server returns only what the query projects. When it does, an edge
      collection whose attribute list leaves out `_from` and whose query
      returns any document makes the whole call fail. */
  lemma EdgesNeedFromProjected(execute: string -> seq<Json>, graphAttributes: map<string, seq<(string, seq<string>)>>, i: nat)
    requires "vertexCollections" in graphAttributes && "edgeCollections" in graphAttributes
    requires var eCols := graphAttributes["edgeCollections"];
      i < |eCols| && "_from" !in eCols[i].1
      && var docs := execute(ProjectionQuery(eCols[i].0, eCols[i].1));
      |docs| > 0 && docs[0].Keys == (set a | a in eCols[i].1) + {"_id"}
    ensures CreateSpec(execute, graphAttributes).Err?
  {
    var eBatches := Fetched(execute, graphAttributes["edgeCollections"]);
    var attrs := graphAttributes["edgeCollections"][i].1;
    assert "_from" !in (set a | a in attrs) + {"_id"};
    assert !HasEndpoints(eBatches[i][0]);
    EdgeBatchesErrorExact(eBatches, |eBatches|);
  }

  // ---------------------------------------------------------------------------
  // The adapter object.

  /** `ArangoDB_Networkx_Adapter` once connected: `self.db.aql.execute`. */
  class ArangoNetworkxAdapter {
    const execute: string -> seq<Json>

    constructor (execute: string -> seq<Json>)
      ensures this.execute == execute
    {
      this.execute := execute;
    }

    /** `create_networkx_graph(graph_name, graph_attributes)`. */
    method CreateNetworkxGraph(graphAttributes: map<string, seq<(string, seq<string>)>>) returns (r: Result<DiGraph>)
      ensures r == CreateSpec(execute, graphAttributes)
    {
      var valid := IsValidGraphAttributes(graphAttributes.Keys);
      if !valid {
        return Err(UnboundLocalError);
      }
      var loaded := LoadCollections(EmptyDiGraph(), graphAttributes["vertexCollections"], true);
      if loaded.Err? {
        return loaded;
      }
      r := LoadCollections(loaded.value, graphAttributes["edgeCollections"], false);
    }

    /** `for k, v in ...: cursor = self.db.aql.execute(query)` followed by the
        vertex or the edge loop, for each collection of cols. */
    method LoadCollections(g: DiGraph, cols: seq<(string, seq<string>)>, vertices: bool) returns (r: Result<DiGraph>)
      ensures r == LoadBatches(g, Fetched(execute, cols), vertices, |cols|)
    {
      ghost var batches := Fetched(execute, cols);
      var h := g;
      for i := 0 to |cols|
        invariant BatchesError(batches, vertices, i).None? && h == BuildBatches(g, batches, vertices, i)
      {
        var (k, v) := cols[i];
        var cursor := execute(ProjectionQuery(k, v));
        assert cursor == batches[i];
        var loaded;
        if vertices {
          loaded := AddVertexDocs(h, cursor);
        } else {
          loaded := AddEdgeDocs(h, cursor);
        }
        LoadBatchesNext(g, batches, vertices, i, h, loaded);
        if loaded.Err? {
          BatchesErrorSticky(batches, vertices, i + 1, |cols|);
          return loaded;
        }
        h := loaded.value;
      }
      r := Ok(h);
    }
  }

  /** `for doc in cursor: g.add_node(doc['_id'], attr_dict=doc)`. */
  method AddVertexDocs(g: DiGraph, docs: seq<Json>) returns (r: Result<DiGraph>)
    ensures r == LoadVertices(g, docs)
  {
    var h := g;
    for k := 0 to |docs|
      invariant VertexDocsError(docs, k).None? && h == AddNodes(g, docs, k)
    {
      if "_id" !in docs[k] {
        r := Err(KeyError(PyStr("_id")));
        VertexDocsErrorSticky(docs, k + 1, |docs|);
        return;
      }
      h := AddNode(h, docs[k]["_id"], map["attr_dict" := docs[k]]);
    }
    r := Ok(h);
  }

  /** The first document without `_id` decides the error of the whole
      cursor. */
  lemma {:induction false} VertexDocsErrorSticky(docs: seq<Json>, n: nat, m: nat)
    requires n <= m <= |docs| && VertexDocsError(docs, n).Some?
    ensures VertexDocsError(docs, m) == VertexDocsError(docs, n)
    decreases m
  {
    if m > n {
      VertexDocsErrorSticky(docs, n, m - 1);
    }
  }

  /** `for doc in cursor: g.add_edge(doc['_from'], doc['_to'])`. */
  method AddEdgeDocs(g: DiGraph, docs: seq<Json>) returns (r: Result<DiGraph>)
    ensures r == LoadEdges(g, docs)
  {
    var h := g;
    for k := 0 to |docs|
      invariant EdgeDocsError(docs, k).None? && h == AddEdges(g, docs, k)
    {
      if "_from" !in docs[k] {
        r := Err(KeyError(PyStr("_from")));
        EdgeDocsErrorSticky(docs, k + 1, |docs|);
        return;
      }
      if "_to" !in docs[k] {
        r := Err(KeyError(PyStr("_to")));
        EdgeDocsErrorSticky(docs, k + 1, |docs|);
        return;
      }
      h := AddEdge(h, docs[k]["_from"], docs[k]["_to"]);
    }
    r := Ok(h);
  }

  /** The first document missing an endpoint decides the error of the whole
      cursor. */
  lemma {:induction false} EdgeDocsErrorSticky(docs: seq<Json>, n: nat, m: nat)
    requires n <= m <= |docs| && EdgeDocsError(docs, n).Some?
    ensures EdgeDocsError(docs, m) == EdgeDocsError(docs, n)
    decreases m
  {
    if m > n {
      EdgeDocsErrorSticky(docs, n, m - 1);
    }
  }
}
