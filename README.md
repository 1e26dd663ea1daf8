# ArangoDB–NetworkX adapter, modelled in Dafny

This project models the core of `arangoml/networkx-adapter`. That core is the
code that translates graphs between ArangoDB (documents in vertex and edge
collections, identified by `_id == collection + "/" + _key`) and NetworkX
(nodes with attribute dictionaries, and edges between node ids). It covers
three generations of the adapter and the controllers that decide identities:

- **The current adapter** (`ADBNX_Adapter`, `adbnx_adapter/adapter.py`) and its
  controllers (`ADBNX_Controller`, `ADBNX_Controller_Full_Cycle`,
  `adbnx_adapter/controller.py`).
  - *Export* (`arangodb_to_networkx`): validates the metagraph. It loads every
    vertex collection, recording `adb_map[_id] = {nx_id, collection}`, then
    every edge collection, joining `_from`/`_to` through `adb_map`.
  - *Import* (`networkx_to_arangodb`):
    1. Validates the edge definitions and collects the vertex and edge
       collections.
    2. For a homogeneous graph, pops the single vertex and edge collection.
    3. Routes every node to a collection and key, writes its `_id` into the
       node's dictionary and records it in `nx_map`.
    4. Routes every edge, writing its `_id`, `_from` and `_to`.
    5. Sends documents to ArangoDB in `batch_size` batches through a
       per-collection buffer, then flushes what remains.
- **The earlier adapter** (`ArangoDB_Networkx_Adapter`,
  `adbnx_adapter/adbnx_adapter/adbnx_adapter.py`) and its `Base_ADBNX_Controller`.
  It differs from the current one in four ways:
  - its identity maps live on the controller object and persist across calls;
  - it imports a copy of the caller's graph;
  - every node is routed by the controller;
  - endpoints are looked up with `map.get(x)["_id"]`.
- **The first adapter** (`adbnx_adapter/adbnx_adapter/arangoDB_networkx_adapter.py`),
  which builds a NetworkX `DiGraph` from AQL projection queries.
- **The configuration step of the IMDB node2vec adapter**
  (`adbnx_adapter/adbnx_adapter/node2vec/imdb_networkx_arango_adapter.py`).

How the model represents things:

- **Python values** are a `PyValue` datatype (None, bool, int, str, tuple).
  Documents and attribute dictionaries are `map<string, PyValue>`.
- **Exceptions** are an `Error` datatype carried by `Result`/`Outcome`.
- **A user-defined controller** is a record of functions (`ControllerHooks.Hooks`),
  one per hook the adapter calls. The two prepare hooks return their value
  and the dictionary as they leave it. The four routing and key hooks return
  only the collection or the key (see "## Left out").
- **A NetworkX graph the adapter writes into** is a class (`NxGraphs.NxGraph`).
- **The database** is two things. One is a function giving the documents a
  collection query returns. The other is a log of every `import_bulk` call
  (`Store.Database`).
- **Each loop of the source** is a method with loop invariants. It is proved
  equal to a specification function (a fold over the loop's prefix), and the
  lemmas state the promised properties of that function.

Two behaviours of the code are modelled as written:

- The current import takes the destination node's `"col"` from the source
  node's `nx_map` entry (`adapter.py:303`).
- The default controller's `_prepare_arangodb_vertex` returns `None`, so with
  it every node the export hands to `add_nodes_from` has the id `None`
  (see "## Findings").

## Model

| member | source | states |
|---|---|---|
| PyValues.Get | adbnx_adapter/controller.py:251 | `d[k]` succeeds iff k is a key, with that key's value, and raises KeyError(k) otherwise |
| PyValues.NatToDecimal | adbnx_adapter/controller.py:133 | `str(i)` of a natural number is a non-empty string of decimal digits |
| PyValues.DecimalRoundTrip | adbnx_adapter/controller.py:133 | reading back the decimal notation of n gives n, so a default key determines its position |
| PyValues.NatToDecimalInjective | adbnx_adapter/adapter.py:279-283 | different positions get different default keys `str(i)` |
| AdbIds.Split | adbnx_adapter/controller.py:251 | `s.split(sep)` yields at least one piece, no piece holds the separator, and joining the pieces with it gives s back |
| AdbIds.SplitFirst | adbnx_adapter/controller.py:251 | piece 0 is the longest prefix without the separator, followed by the separator when shorter than s |
| AdbIds.SplitMany | adbnx_adapter/adbnx_adapter/adbnx_controller.py:106-108 | there is a piece 1 (no IndexError) exactly when the separator occurs |
| AdbIds.SplitNoSeparator | adbnx_adapter/controller.py:251 | a string without the separator splits into itself |
| AdbIds.SplitAround | adbnx_adapter/controller.py:251 | splitting `a + sep + b` with a separator-free a gives a, then the pieces of b |
| AdbIds.SplitJoin | adbnx_adapter/controller.py:251 | join then split is the identity on separator-free pieces |
| AdbIds.CollectionOf | adbnx_adapter/controller.py:251 | `id.split("/")[0]` is the "/"-free prefix of the id up to its first "/", or the whole id |
| AdbIds.KeyOf | adbnx_adapter/adbnx_adapter/adbnx_controller.py:106-108 | `id.split("/")[1]` raises IndexError exactly when the id has no "/", and is "/"-free otherwise |
| AdbIds.IdRoundTrip | adbnx_adapter/adapter.py:285 | an id `col + "/" + key` built from "/"-free parts splits back into exactly col and key |
| Validation.ValidateAttributes | adbnx_adapter/adapter.py:457-474 | passes iff every required key is present; otherwise ValueError naming the kind and exactly the missing keys |
| Validation.ConnectionNeedsCredentials | adbnx_adapter/tests/test_adbnx_adapter.py:20-34 | a connection without username or password is refused, and the refusal names the missing credential |
| Connections.GetOr | adbnx_adapter/adapter.py:61-62 | `d.get(k, default)` is `d[k]` when k is present and the default otherwise |
| Connections.AsStr | adbnx_adapter/adapter.py:64 | concatenating a non-str value raises TypeError; a str passes unchanged |
| Connections.Connect | adbnx_adapter/adapter.py:47-67 | succeeds iff the four connection keys are present and protocol and host are strings; connects with that URL and the dbName, username and password; a missing key gives ValueError naming exactly the missing keys |
| Connections.UrlParts | adbnx_adapter/adapter.py:61-64 | the URL falls apart at its colons into protocol, `"//" + host` and port when none of them holds a colon |
| Connections.DefaultUrl | adbnx_adapter/adbnx_adapter/adbnx_adapter.py:43-47 | without protocol and port the URL is `"https://" + host + ":8529"` |
| KeyHelpers.KeyFilter | adbnx_adapter/controller.py:211-224 | the kept characters are all valid key characters and there are no more of them than in the input |
| KeyHelpers.KeyFilterConcat | adbnx_adapter/controller.py:219-224 | filtering distributes over concatenation |
| KeyHelpers.KeyFilterCounts | adbnx_adapter/controller.py:221 | every valid key character is kept as often as it occurs, and every other character is dropped |
| KeyHelpers.KeyFilterIsSubsequence | adbnx_adapter/controller.py:220-222 | the result keeps the input's characters in their original order |
| KeyHelpers.KeyFilterFixpoint | adbnx_adapter/abc.py:112-131 | the helper leaves a string unchanged iff it consists only of valid key characters |
| KeyHelpers.KeyFilterIdempotent | adbnx_adapter/controller.py:211-224 | applying the helper twice is applying it once |
| KeyHelpers.StringToArangodbKey | adbnx_adapter/controller.py:211-224 | the loop returns exactly the filtered string, which has no "/" and no space |
| KeyHelpers.StrAll | adbnx_adapter/controller.py:234 | `map(str, tup)` has one string per element, each its `str` |
| KeyHelpers.TupleToArangodbKey | adbnx_adapter/controller.py:226-235 | the tuple key is the filter of the concatenated `str`s, with no "/" and no space |
| KeyHelpers.TupleKeyPerElement | adbnx_adapter/controller.py:226-235 | the tuple key is the concatenation of the keys of its elements |
| KeyHelpers.IntStrIsKey | adbnx_adapter/controller.py:133 | `str` of any int is already a valid key |
| KeyHelpers.PairKey | adbnx_adapter/adbnx_adapter/adbnx_controller.py:153-162 | a pair of ints keys to their two decimal forms side by side |
| BaseController.PrepareArangodbVertex | adbnx_adapter/adbnx_adapter/adbnx_controller.py:22-37 | the node id is the vertex's `_id`, the vertex is unchanged, and a vertex without `_id` raises KeyError |
| BaseController.PrepareArangodbEdge | adbnx_adapter/adbnx_adapter/adbnx_controller.py:39-52 | the edge is left unchanged |
| BaseController.CollectionOfValue | adbnx_adapter/adbnx_adapter/adbnx_controller.py:67-69 | `.split` on a non-str raises AttributeError; on a str the result is its "/"-free prefix |
| BaseController.KeyOfValue | adbnx_adapter/adbnx_adapter/adbnx_controller.py:106-108 | AttributeError on a non-str, IndexError on a str without "/", otherwise a "/"-free key |
| BaseController.IdentifyNetworkxNode | adbnx_adapter/adbnx_adapter/adbnx_controller.py:54-69 | succeeds iff the node id is a str, and gives a "/"-free collection |
| BaseController.IdentifyNetworkxEdge | adbnx_adapter/adbnx_adapter/adbnx_controller.py:71-90 | succeeds iff the edge has a str `_id`, and a missing `_id` raises KeyError |
| BaseController.KeyifyNetworkxNode | adbnx_adapter/adbnx_adapter/adbnx_controller.py:92-108 | succeeds iff the node id is a str containing "/", and raises IndexError for a str without "/" |
| BaseController.KeyifyNetworkxEdge | adbnx_adapter/adbnx_adapter/adbnx_controller.py:110-136 | succeeds iff the edge `_id` is a str containing "/"; KeyError without `_id`, IndexError without "/" |
| BaseController.NodeRoundTrip | adbnx_adapter/adbnx_adapter/adbnx_controller.py:54-108 | a node named `c + "/" + k` is routed to exactly collection c and key k |
| BaseController.EdgeRoundTrip | adbnx_adapter/adbnx_adapter/adbnx_controller.py:71-136 | an edge whose `_id` is `c + "/" + k` is routed to exactly collection c and key k |
| Controller.PrepareArangodbVertex | adbnx_adapter/controller.py:19-33 | leaves the vertex alone and returns None as node id |
| Controller.PrepareArangodbEdge | adbnx_adapter/controller.py:35-47 | leaves the edge alone |
| Controller.IdentifyNetworkxNode | adbnx_adapter/controller.py:49-71 | always raises NotImplementedError: it must be overridden |
| Controller.IdentifyNetworkxEdge | adbnx_adapter/controller.py:73-109 | always raises NotImplementedError: it must be overridden |
| Controller.KeyifyNetworkxNode | adbnx_adapter/controller.py:111-133 | the key is a valid "/"-free key, and for a position i ≥ 0 it is the decimal digits of i |
| Controller.KeyifyNetworkxEdge | adbnx_adapter/controller.py:135-175 | the key is a valid "/"-free key, and for a position i ≥ 0 it is the decimal digits of i |
| Controller.DefaultKeysDistinct | adbnx_adapter/controller.py:133 | two different positions never get the same default key |
| Controller.PrepareNetworkxNode | adbnx_adapter/controller.py:177-194 | leaves the document alone |
| Controller.PrepareNetworkxEdge | adbnx_adapter/controller.py:196-209 | leaves the document alone |
| Controller.FullCycleIdentifyNode | adbnx_adapter/controller.py:248-251 | KeyError iff the node has no `_id`; otherwise the "/"-free prefix of `str(_id)` up to its first "/" |
| Controller.FullCycleIdentifyEdge | adbnx_adapter/controller.py:253-261 | KeyError iff the edge has no `_id`; otherwise the "/"-free prefix of `str(_id)` |
| Controller.FullCycleKeyifyNode | adbnx_adapter/controller.py:263-266 | KeyError iff the node has no `_key`; otherwise the stored key |
| Controller.FullCycleKeyifyEdge | adbnx_adapter/controller.py:268-277 | KeyError iff the edge has no `_key`; otherwise the stored key |
| Controller.FullCycleRoundTrip | adbnx_adapter/controller.py:238-246 | a document carrying `_id == col + "/" + key` and `_key == key` is sent back to exactly col and key: the original identity is preserved |
| NxGraphs.NxGraph.Copy | adbnx_adapter/adbnx_adapter/adbnx_adapter.py:196 | the copy is a fresh graph with the same nodes, edges and attributes |
| Store.SentAppend | adbnx_adapter/adapter.py:322-323 | what two flush logs send to a collection is what each sends, in order |
| Store.Database.ImportBulk | adbnx_adapter/adapter.py:529 | one `import_bulk` call appends exactly one flush of those documents to that collection |
| Store.InsertStep | adbnx_adapter/adapter.py:507-530 | a buffer exists for the collection afterwards and no other buffer is created |
| Store.InsertStepDelivers | adbnx_adapter/adapter.py:526-530 | sent plus waiting grows by exactly the new document in its collection and stays the same elsewhere: nothing is dropped or duplicated |
| Store.FlushDelivers | adbnx_adapter/adapter.py:528-530 | a flush moves the buffer's documents from waiting to sent |
| Store.InsertStepBounded | adbnx_adapter/adapter.py:528-530 | with batch_size ≥ 1 a buffer stays below batch_size, and a flush sends exactly batch_size documents |
| Store.InsertKeepsAccounted | adbnx_adapter/adapter.py:288 | buffering one more routed document keeps "sent + waiting == routed" for every collection |
| Store.AccountedPrefix | adbnx_adapter/adapter.py:507-530 | before the final flush each collection has received a prefix of the documents routed to it |
| Store.FinalFlushes | adbnx_adapter/adapter.py:322-323 | one flush per buffer, in the order the buffers were created, each with that buffer's documents |
| Store.FinalFlushesDeliver | adbnx_adapter/adapter.py:322-323 | the final loop sends each collection exactly its waiting documents |
| Store.FinalFlushesComplete | adbnx_adapter/adapter.py:273-323 | after the final flush every routed document has reached its collection exactly once and in order |
| Store.DocumentBuffers.constructor | adbnx_adapter/adapter.py:273 | `defaultdict(list)` starts with no buffers |
| Store.DocumentBuffers.InsertAdbDocs | adbnx_adapter/adapter.py:507-530 | the buffers and the flush log change as `InsertStep` says, and a new collection's buffer is created at the end of the order |
| Store.DocumentBuffers.FlushRemaining | adbnx_adapter/adapter.py:322-323 | the database log grows by exactly `FinalFlushes` of the buffers |
| Export.Unmapped | adbnx_adapter/adapter.py:133-134 | an endpoint missing from `adb_map` raises KeyError (current adapter) or TypeError (earlier adapter's `get`) |
| Export.Tag | adbnx_adapter/adapter.py:122-123 | each document of a collection is paired with that collection, in order |
| Export.VertexFold | adbnx_adapter/adapter.py:122-128 | the vertex loop never adds edges |
| Export.EdgeFold | adbnx_adapter/adapter.py:131-137 | the edge loop changes neither `adb_map` nor the nodes |
| Export.ExportResult | adbnx_adapter/adapter.py:139-143 | the export fails exactly when a step raised, with that exception; otherwise it returns the recorded nodes and edges |
| Export.VertexFoldSticky | adbnx_adapter/adapter.py:122-128 | after an exception the vertex loop records nothing more |
| Export.VertexFoldNodes | adbnx_adapter/adapter.py:124-128 | a vertex loop that raised nothing saw only vertices with `_id`, and node t is what the prepare hook returned for vertex t |
| Export.VertexFoldKeys | adbnx_adapter/adapter.py:126 | `adb_map` holds exactly the starting entries plus the `_id` of every fetched vertex |
| Export.VertexFoldLastWins | adbnx_adapter/adapter.py:126 | each vertex is recorded under its `_id` with its node id and collection, unless a later vertex has the same `_id` |
| Export.VertexFoldKeepsOld | adbnx_adapter/adbnx_adapter/adbnx_adapter.py:295 | earlier entries of the controller's map that no fetched vertex replaces survive unchanged |
| Export.EdgeFoldSticky | adbnx_adapter/adapter.py:131-137 | after an exception the edge loop records nothing more |
| Export.EdgeFoldResolves | adbnx_adapter/adapter.py:133-137 | a successful edge loop adds one edge per document, from `adb_map[_from]`'s node id to `adb_map[_to]`'s, carrying the prepared edge |
| Export.EdgeFoldDangling | adbnx_adapter/adapter.py:133-134 | an edge whose `_from` or `_to` is missing or unmapped aborts the export |
| Export.EdgeFoldFailsIff | adbnx_adapter/adapter.py:133-135 | with a prepare hook that accepts every edge, the edge loop raises iff some edge does not resolve, and only KeyError or TypeError |
| Export.ExportSpecComplete | adbnx_adapter/adapter.py:112-143 | a successful export validated the metagraph, has one node per fetched vertex, and joined every edge through the map of all vertices, across collections |
| Export.CollectionsMetagraph | adbnx_adapter/adapter.py:166-169 | a metagraph built from collection names passes validation and maps each collection, in order, to an empty attribute set |
| Export.ExportVertices | adbnx_adapter/adapter.py:122-128 | the nested vertex loops end in exactly the state of the vertex fold over all fetched documents |
| Export.ExportCollectionVertices | adbnx_adapter/adapter.py:123-128 | the inner vertex loop extends the fold by one collection's documents |
| Export.ExportVertex | adbnx_adapter/adapter.py:124-128 | one loop body is one `VertexStep` |
| Export.ExportEdge | adbnx_adapter/adapter.py:133-137 | one loop body is one `EdgeStep` |
| Export.ExportEdges | adbnx_adapter/adapter.py:131-137 | the nested edge loops end in exactly the state of the edge fold over all fetched documents |
| Export.ExportCollectionEdges | adbnx_adapter/adapter.py:132-137 | the inner edge loop extends the fold by one collection's documents |
| Export.EdgeFoldSnoc | adbnx_adapter/adapter.py:132-137 | the edge fold over one more document is one more edge step |
| Export.RunExport | adbnx_adapter/adapter.py:112-143 | validation, vertex loops and edge loops together compute `ExportSpec` and its final map |
| AdbnxAdapter.Adapter.constructor | adbnx_adapter/adapter.py:47-68 | the adapter holds the given database and controller |
| AdbnxAdapter.Adapter.ArangodbToNetworkx | adbnx_adapter/adapter.py:70-143 | the result is `ExportSpec` on a fresh `adb_map` with strict subscripts, so the identity map of one call never leaks into another |
| AdbnxAdapter.Adapter.ArangodbCollectionsToNetworkx | adbnx_adapter/adapter.py:145-173 | it is the export of the collections' metagraph with is_keep off |
| AdbnxAdapter.Adapter.NetworkxToArangodb | adbnx_adapter/adapter.py:196-326 | an invalid edge definition raises with nothing written; an empty homogeneous pop raises KeyError; otherwise the graph's dictionaries end as `ImportSpec` says with the popped collections, and on success every routed document reached its collection exactly once and in order, whatever batch_size is |
| AdbnxAdapter.DefaultControllerNodeIds | adbnx_adapter/adapter.py:124-127 | with the shipped controller every node handed to `add_nodes_from` has the id None |
| AdbnxAdapter.DocumentedControllerNodeIds | adbnx_adapter/controller.py:22-25 | with `_prepare_arangodb_vertex` as documented, every node handed to `add_nodes_from` is the fetched vertex under its own `_id`, in the order fetched |
| Import.ValidateEdgeDefinitions | adbnx_adapter/adapter.py:243-246 | passes iff every edge definition has the three required keys |
| Import.VertexCollections | adbnx_adapter/adapter.py:259-263 | exactly the from and to collections named by some edge definition |
| Import.EdgeCollections | adbnx_adapter/adapter.py:252-254 | exactly the `str` of each definition's edge collection |
| Import.HomogeneousHasEdgeCollection | adbnx_adapter/adapter.py:267-269 | a homogeneous graph has an edge collection to pop |
| Import.NodeRouteDefault | adbnx_adapter/adapter.py:278-283 | with a fixed vertex collection and keyify off, node i goes to that collection under key `str(i)`, consulting no controller |
| Import.EdgeRouteDefault | adbnx_adapter/adapter.py:307-314 | with a fixed edge collection and keyify off, edge j goes to that collection under key `str(j)` |
| Import.NodePass | adbnx_adapter/adapter.py:277-288 | the node loop leaves the edges alone |
| Import.EdgePass | adbnx_adapter/adapter.py:293-320 | the edge loop changes neither the node dictionaries nor `nx_map`, and leaves the edges it has not reached alone |
| Import.NodePassSticky | adbnx_adapter/adapter.py:277-288 | an exception ends the node loop |
| Import.EdgePassSticky | adbnx_adapter/adapter.py:293-320 | an exception ends the edge loop |
| Import.NodePassAssigns | adbnx_adapter/adapter.py:278-286 | every node the loop passed got its route's `_id`, written into its dictionary and recorded in `nx_map` with collection and key |
| Import.NodePassMapKeys | adbnx_adapter/adapter.py:286 | `nx_map` holds exactly the nodes the loop has gone through |
| Import.NodePassRoutes | adbnx_adapter/adapter.py:288 | node i's document is the i-th routed document, sent to the collection `nx_map` records for it |
| Import.EndpointsMapped | adbnx_adapter/adapter.py:296-305 | after a complete node loop both endpoints of every edge are in `nx_map`, so the lookups at lines 298, 303, 317 and 318 cannot raise |
| Import.NodePassDomain | adbnx_adapter/adapter.py:285 | the node loop keeps every node's dictionary |
| Import.EdgeStepResolves | adbnx_adapter/adapter.py:296-320 | a step that does not raise routes the edge from the contexts of its endpoints (the destination's "col" taken from the source node), gives it the `_id` `col + "/" + key` of that route and its endpoints' `_id`s as `_from`/`_to`, appends exactly that document for the route's collection, and touches nothing else |
| Import.EdgePassResolves | adbnx_adapter/adapter.py:307-318 | after a complete node loop, every edge a successful edge loop passed has a successful route, the `_id` `col + "/" + key` of that route, and `_from`/`_to` equal to the `_id`s the node loop gave its endpoints |
| Import.EdgePassRoutes | adbnx_adapter/adapter.py:307-320 | an edge loop that did not raise appends one document per edge, in order: edge j's final dictionary, sent to the collection of edge j's route |
| Import.NodePassRoutedCount | adbnx_adapter/adapter.py:275-288 | a node loop that did not raise routed exactly one document per node, so edge documents follow the node documents |
| Import.DefaultEdgePass | adbnx_adapter/adapter.py:307-316 | with a fixed edge collection and default keys, edge j gets the `_id` `col + "/" + str(j)` and its document goes to that collection |
| Import.EdgePassSucceeds | adbnx_adapter/adapter.py:307-320 | with a fixed edge collection and default keys the edge loop cannot fail |
| Import.EdgePassNextSucceeds | adbnx_adapter/adapter.py:307-320 | with a fixed edge collection and default keys, an edge with mapped endpoints does not raise |
| Import.NodePassSucceeds | adbnx_adapter/adapter.py:278-283 | with a fixed vertex collection and default keys the node loop cannot fail |
| Import.HomogeneousImportSucceeds | adbnx_adapter/adapter.py:267-320 | a homogeneous graph imported with default keys never raises |
| Import.NodePassSameRoutes | adbnx_adapter/adapter.py:277-288 | the node loop depends on the configuration only through the routes it computes |
| Import.NodePassIgnoresHooks | adbnx_adapter/adapter.py:278 | with a fixed collection and default keys the controller is never consulted in the node loop |
| Import.EdgePassIgnoresHooks | adbnx_adapter/adapter.py:307 | with a fixed collection and default keys the controller is never consulted in the edge loop |
| Import.HomogeneousIgnoresHooks | adbnx_adapter/adapter.py:267-320 | a homogeneous import with default keys is the same whatever the controller |
| Import.KeyNoSeparator | adbnx_adapter/adapter.py:282 | a default key has no "/" |
| Import.DefaultNodeIdsDistinct | adbnx_adapter/adapter.py:285 | with a "/"-free fixed collection and default keys, distinct nodes get distinct `_id`s |
| Import.DefaultEdgeIdsDistinct | adbnx_adapter/adapter.py:316 | with a "/"-free fixed edge collection and default keys, edge j's `_id` is `col + "/" + str(j)`, its document goes to that collection, and distinct edges get distinct `_id`s |
| Import.NodePassUntouched | adbnx_adapter/adapter.py:277-288 | the node loop leaves the dictionaries of nodes it has not reached alone |
| Import.FirstInvalidEdgeDefinition | adbnx_adapter/adapter.py:243-246 | the error reported is the one for the first edge definition lacking a key |
| Import.CheckEdgeDefinitions | adbnx_adapter/adapter.py:243-246 | the validation loop computes `ValidateEdgeDefinitions` |
| Import.CollectCollections | adbnx_adapter/adapter.py:250-265 | the collection loop collects exactly `VertexCollections` and `EdgeCollections` |
| Import.ImportNode | adbnx_adapter/adapter.py:278-288 | one body of the node loop extends `NodePass` by one node and keeps the buffer bookkeeping |
| Import.ImportNodes | adbnx_adapter/adapter.py:277-288 | the node loop ends in `NodePass` over all nodes, with sent + waiting == routed |
| Import.ImportEdge | adbnx_adapter/adapter.py:296-320 | one body of the edge loop extends `EdgePass` by one edge and keeps the buffer bookkeeping |
| Import.ImportEdges | adbnx_adapter/adapter.py:293-320 | the edge loop ends in `EdgePass` over all edges, with sent + waiting == routed |
| Import.RunImport | adbnx_adapter/adapter.py:273-323 | the graph ends as `ImportSpec` says; the database got a prefix of each collection's routed documents, and all of them when nothing raised |
| LegacyAdapter.LegacyController.constructor | adbnx_adapter/adbnx_adapter/adbnx_adapter.py:55 | a new controller object holds the given hooks; its `adb_map` and `nx_map` are assumed to start empty (see "## Left out") |
| LegacyAdapter.NodeContext | adbnx_adapter/adbnx_adapter/adbnx_adapter.py:225-226 | the endpoint context has an "id", which is the node id unless the node has its own "id" attribute |
| LegacyAdapter.NodeContextIsMerge | adbnx_adapter/adbnx_adapter/adbnx_adapter.py:225-226 | the context is the dictionary merge `{"id": node_id, **node}` |
| LegacyAdapter.Linked | adbnx_adapter/adbnx_adapter/adbnx_adapter.py:373-374 | `_from` and `_to` are the `_id`s `adb_map` holds; a missing endpoint raises TypeError after the writes before it |
| LegacyAdapter.LegacyApply | adbnx_adapter/adbnx_adapter/adbnx_adapter.py:224-235 | one iteration writes back only its own edge |
| LegacyAdapter.LegacyEdgePass | adbnx_adapter/adbnx_adapter/adbnx_adapter.py:224-235 | the edge loop leaves the edges it has not reached alone |
| LegacyAdapter.LegacyNodePassSticky | adbnx_adapter/adbnx_adapter/adbnx_adapter.py:215-222 | an exception ends the node loop |
| LegacyAdapter.LegacyEdgePassSticky | adbnx_adapter/adbnx_adapter/adbnx_adapter.py:224-235 | an exception ends the edge loop |
| LegacyAdapter.LegacyNodePassUntouched | adbnx_adapter/adbnx_adapter/adbnx_adapter.py:215-222 | the node loop leaves unreached node dictionaries alone |
| LegacyAdapter.LegacyNodePassAssigns | adbnx_adapter/adbnx_adapter/adbnx_adapter.py:215-222 | every node passed got the controller's collection and key as `_id`, in its dictionary and in `adb_map`, and `adb_map` is the old map plus exactly those nodes |
| LegacyAdapter.LegacyNodePassRoutes | adbnx_adapter/adbnx_adapter/adbnx_adapter.py:338-347 | node i's document is the i-th routed, to the collection `adb_map` records |
| LegacyAdapter.LegacyEdgeEffectResolves | adbnx_adapter/adbnx_adapter/adbnx_adapter.py:224-235 | a buffered edge whose endpoints have no "id" attribute is resolved through `adb_map` |
| LegacyAdapter.LegacyEdgePassSends | adbnx_adapter/adbnx_adapter/adbnx_adapter.py:233-235 | a successful edge loop buffered every edge, in order, after what was routed before |
| LegacyAdapter.LegacyNodePassEdges | adbnx_adapter/adbnx_adapter/adbnx_adapter.py:215-222 | the node loop leaves the edges alone |
| LegacyAdapter.LegacyImportResolves | adbnx_adapter/adbnx_adapter/adbnx_adapter.py:215-238 | a successful import of a graph whose nodes have no "id" attribute gives every edge `_from`/`_to` of its endpoints, and an `_id` exactly when keyify_edges is set |
| LegacyAdapter.LegacyNodeDataKeepsNoId | adbnx_adapter/adbnx_adapter/adbnx_adapter.py:218 | writing `_id` into node dictionaries adds no "id" attribute |
| LegacyAdapter.ArangoIdsKept | adbnx_adapter/adbnx_adapter/adbnx_adapter.py:215-222 | with a controller that keeps ArangoDB ids, a graph of ArangoDB ids passes the node loop and each node goes back under its own id |
| LegacyAdapter.LegacyNodeKeepsId | adbnx_adapter/adbnx_adapter/adbnx_adapter.py:216-218 | one node step on an ArangoDB id with such a controller succeeds and records that id |
| LegacyAdapter.BaseControllerKeepsIds | adbnx_adapter/adbnx_adapter/adbnx_controller.py:54-108 | the base controller keeps ArangoDB ids, so a graph exported with it keeps its node ids on import |
| LegacyAdapter.BaseRoute | adbnx_adapter/adbnx_adapter/adbnx_controller.py:54-108 | the base controller routes an ArangoDB id to its own collection and key |
| LegacyAdapter.Adapter.constructor | adbnx_adapter/adbnx_adapter/adbnx_adapter.py:32-55 | the adapter holds the database and the controller object |
| LegacyAdapter.Adapter.ArangodbToNetworkx | adbnx_adapter/adbnx_adapter/adbnx_adapter.py:57-107 | the result is `ExportSpec` against the controller's persistent `nx_map`, which keeps its entries afterwards, also on failure |
| LegacyAdapter.Adapter.ArangodbCollectionsToNetworkx | adbnx_adapter/adbnx_adapter/adbnx_adapter.py:109-136 | the export of the collections' metagraph with is_keep off |
| LegacyAdapter.Adapter.NetworkxToArangodb | adbnx_adapter/adbnx_adapter/adbnx_adapter.py:157-241 | the caller's graph is unchanged; an invalid definition raises with nothing written; otherwise `adb_map` ends as `LegacyImportSpec` says and on success every routed document arrives exactly once, in order |
| LegacyAdapter.LegacyRunImport | adbnx_adapter/adbnx_adapter/adbnx_adapter.py:213-238 | both loops and the final flush compute `LegacyImportSpec`, and the database receives a prefix of the routed documents, all of them on success |
| LegacyAdapter.LegacyImportNode | adbnx_adapter/adbnx_adapter/adbnx_adapter.py:216-222 | one node-loop body extends the node pass by one node |
| LegacyAdapter.LegacyImportNodes | adbnx_adapter/adbnx_adapter/adbnx_adapter.py:215-222 | the node loop computes the node pass and keeps sent + waiting == routed |
| LegacyAdapter.LegacyImportEdge | adbnx_adapter/adbnx_adapter/adbnx_adapter.py:225-235 | one edge-loop body carries out that edge's effect |
| LegacyAdapter.LinkEndpoints | adbnx_adapter/adbnx_adapter/adbnx_adapter.py:373-374 | the two lookups compute `Linked` |
| LegacyAdapter.LegacyEdgeLoopStep | adbnx_adapter/adbnx_adapter/adbnx_adapter.py:224-235 | one turn of the edge loop extends the edge pass by one edge and keeps the bookkeeping |
| LegacyAdapter.LegacyImportEdges | adbnx_adapter/adbnx_adapter/adbnx_adapter.py:224-235 | the edge loop computes the edge pass over every edge and keeps sent + waiting == routed |
| FirstAdapter.IsValidConn | adbnx_adapter/adbnx_adapter/arangoDB_networkx_adapter.py:40-55 | true iff username, password and dbName are present; a missing hostname is not refused |
| FirstAdapter.IsValidGraphAttributes | adbnx_adapter/adbnx_adapter/arangoDB_networkx_adapter.py:57-67 | true iff both collection lists are present |
| FirstAdapter.Init | adbnx_adapter/adbnx_adapter/arangoDB_networkx_adapter.py:17-38 | a refused dictionary gives no database; a connection made carries that dictionary's dbName, username and password |
| FirstAdapter.InitAgreesWithConnect | adbnx_adapter/adbnx_adapter/arangoDB_networkx_adapter.py:19-33 | with all four keys the first adapter connects exactly as the later ones do |
| FirstAdapter.InitWithoutHostname | adbnx_adapter/adbnx_adapter/arangoDB_networkx_adapter.py:18-19 | an accepted dictionary without hostname raises KeyError at `conn["hostname"]` |
| FirstAdapter.InitWithoutHostnameExample | adbnx_adapter/adbnx_adapter/arangoDB_networkx_adapter.py:43-44 | a concrete dictionary with credentials and dbName but no hostname is accepted and then raises KeyError |
| FirstAdapter.InitFixed | adbnx_adapter/adbnx_adapter/arangoDB_networkx_adapter.py:40-55 | with hostname also required, an accepted dictionary never fails on a missing key, only with TypeError for a non-str protocol or host |
| FirstAdapter.Projections | adbnx_adapter/adbnx_adapter/arangoDB_networkx_adapter.py:75 | one projection `s:doc.s` per attribute, in order |
| FirstAdapter.JoinProjections | adbnx_adapter/adbnx_adapter/arangoDB_networkx_adapter.py:76-77 | joining the projections and a last item with commas puts a comma after every projection |
| FirstAdapter.ProjectionQueryShape | adbnx_adapter/adbnx_adapter/arangoDB_networkx_adapter.py:74-78 | the query is `FOR doc in col RETURN { a:doc.a,…,_id: doc._id}`: every attribute under its own name, and `_id` always |
| FirstAdapter.AddNode | adbnx_adapter/adbnx_adapter/arangoDB_networkx_adapter.py:82 | `add_node` adds the node if new, merges the attributes, and keeps the edges |
| FirstAdapter.AddEdge | adbnx_adapter/adbnx_adapter/arangoDB_networkx_adapter.py:94 | `add_edge` adds both endpoints as nodes and the edge once |
| FirstAdapter.AddNodeConsistent | adbnx_adapter/adbnx_adapter/arangoDB_networkx_adapter.py:82 | adding a node keeps every edge endpoint a node |
| FirstAdapter.AddEdgeKeepsAttributes | adbnx_adapter/adbnx_adapter/arangoDB_networkx_adapter.py:94 | `add_edge` leaves the attributes of existing nodes alone |
| FirstAdapter.AddEdgeConsistent | adbnx_adapter/adbnx_adapter/arangoDB_networkx_adapter.py:94 | adding an edge keeps every edge endpoint a node |
| FirstAdapter.VertexDocsError | adbnx_adapter/adbnx_adapter/arangoDB_networkx_adapter.py:81-82 | the only error of the vertex loop is KeyError on `_id` |
| FirstAdapter.VertexDocsErrorExact | adbnx_adapter/adbnx_adapter/arangoDB_networkx_adapter.py:81-82 | the vertex loop raises iff some document has no `_id` |
| FirstAdapter.AddNodesLastWins | adbnx_adapter/adbnx_adapter/arangoDB_networkx_adapter.py:82 | a node keeps, under the attribute "attr_dict", the last document with its `_id` |
| FirstAdapter.LoadVertices | adbnx_adapter/adbnx_adapter/arangoDB_networkx_adapter.py:81-82 | the vertex loop raises only KeyError on `_id` |
| FirstAdapter.EdgeDocsError | adbnx_adapter/adbnx_adapter/arangoDB_networkx_adapter.py:93-94 | the only errors of the edge loop are KeyError on `_from` or `_to` |
| FirstAdapter.EdgeDocsErrorExact | adbnx_adapter/adbnx_adapter/arangoDB_networkx_adapter.py:93-94 | the edge loop raises iff some document lacks `_from` or `_to` |
| FirstAdapter.LoadEdges | adbnx_adapter/adbnx_adapter/arangoDB_networkx_adapter.py:93-94 | the edge loop raises only KeyError on `_from` or `_to` |
| FirstAdapter.Fetched | adbnx_adapter/adbnx_adapter/arangoDB_networkx_adapter.py:73-80 | one cursor per collection, in order, each the result of that collection's projection query |
| FirstAdapter.EmptyDiGraph | adbnx_adapter/adbnx_adapter/arangoDB_networkx_adapter.py:72 | a new DiGraph has no nodes and no edges |
| FirstAdapter.CreateSpec | adbnx_adapter/adbnx_adapter/arangoDB_networkx_adapter.py:69-96 | without both collection lists `return g` raises UnboundLocalError |
| FirstAdapter.AddNodesAdds | adbnx_adapter/adbnx_adapter/arangoDB_networkx_adapter.py:81-82 | the vertex loop keeps nodes and edges and adds a node for every document's `_id` |
| FirstAdapter.AddNodesConsistent | adbnx_adapter/adbnx_adapter/arangoDB_networkx_adapter.py:81-82 | the vertex loop keeps the DiGraph consistent |
| FirstAdapter.LoadVerticesAdds | adbnx_adapter/adbnx_adapter/arangoDB_networkx_adapter.py:81-82 | a vertex cursor that loads keeps the graph consistent and adds every document as a node |
| FirstAdapter.AddEdgesAdds | adbnx_adapter/adbnx_adapter/arangoDB_networkx_adapter.py:93-94 | the edge loop keeps nodes and edges and adds every document's edge with both endpoints as nodes |
| FirstAdapter.AddEdgesConsistent | adbnx_adapter/adbnx_adapter/arangoDB_networkx_adapter.py:93-94 | the edge loop keeps the DiGraph consistent |
| FirstAdapter.VertexBatchesAdd | adbnx_adapter/adbnx_adapter/arangoDB_networkx_adapter.py:73-82 | loading every vertex cursor keeps the edges and adds every document of every cursor as a node |
| FirstAdapter.EdgeBatchesAdd | adbnx_adapter/adbnx_adapter/arangoDB_networkx_adapter.py:84-94 | loading every edge cursor keeps the nodes and adds every document of every cursor as an edge |
| FirstAdapter.VertexBatchesErrorExact | adbnx_adapter/adbnx_adapter/arangoDB_networkx_adapter.py:73-82 | the vertex cursors raise iff some document has no `_id` |
| FirstAdapter.EdgeBatchesErrorExact | adbnx_adapter/adbnx_adapter/arangoDB_networkx_adapter.py:84-94 | the edge cursors raise iff some document lacks an endpoint |
| FirstAdapter.BatchesErrorSticky | adbnx_adapter/adbnx_adapter/arangoDB_networkx_adapter.py:73-94 | the first cursor that raises decides the error of the whole loop |
| FirstAdapter.LoadEdgesAdds | adbnx_adapter/adbnx_adapter/arangoDB_networkx_adapter.py:93-94 | an edge cursor that loads keeps the graph consistent and adds every document's edge |
| FirstAdapter.CreateLoadsEverything | adbnx_adapter/adbnx_adapter/arangoDB_networkx_adapter.py:69-96 | a built graph is a consistent DiGraph holding every vertex document's `_id` as a node and every edge document as an edge between two nodes |
| FirstAdapter.EdgesNeedFromProjected | adbnx_adapter/adbnx_adapter/arangoDB_networkx_adapter.py:85-94 | a server returning only the projected attributes makes the call fail for any edge collection whose attribute list omits `_from` and that returns a document |
| FirstAdapter.ArangoNetworkxAdapter.constructor | adbnx_adapter/adbnx_adapter/arangoDB_networkx_adapter.py:32-33 | the adapter runs its queries on the given database |
| FirstAdapter.ArangoNetworkxAdapter.CreateNetworkxGraph | adbnx_adapter/adbnx_adapter/arangoDB_networkx_adapter.py:69-96 | the method computes `CreateSpec` |
| FirstAdapter.ArangoNetworkxAdapter.LoadCollections | adbnx_adapter/adbnx_adapter/arangoDB_networkx_adapter.py:73-94 | the loop over the collections loads the fetched cursors as `LoadBatches` says |
| FirstAdapter.AddVertexDocs | adbnx_adapter/adbnx_adapter/arangoDB_networkx_adapter.py:81-82 | the loop over one cursor computes `LoadVertices` |
| FirstAdapter.VertexDocsErrorSticky | adbnx_adapter/adbnx_adapter/arangoDB_networkx_adapter.py:81-82 | the first document without `_id` decides the error |
| FirstAdapter.AddEdgeDocs | adbnx_adapter/adbnx_adapter/arangoDB_networkx_adapter.py:93-94 | the loop over one cursor computes `LoadEdges` |
| FirstAdapter.EdgeDocsErrorSticky | adbnx_adapter/adbnx_adapter/arangoDB_networkx_adapter.py:93-94 | the first document missing an endpoint decides the error |
| Node2VecConfig.PyDict.Put | adbnx_adapter/adbnx_adapter/node2vec/imdb_networkx_arango_adapter.py:84 | `d[k] = v` sets the value and appends a new key at the end of the order |
| Node2VecConfig.DefaultsNeverOverwrite | adbnx_adapter/adbnx_adapter/node2vec/imdb_networkx_arango_adapter.py:82-93 | existing keys keep their values, port and protocol are present afterwards, their defaults are 8529 and "https", and no other key is added |
| Node2VecConfig.DefaultsIdempotent | adbnx_adapter/adbnx_adapter/node2vec/imdb_networkx_arango_adapter.py:82-93 | filling in the defaults a second time changes neither the values nor the key order |
| Node2VecConfig.DefaultsKeepValidity | adbnx_adapter/adbnx_adapter/node2vec/imdb_networkx_arango_adapter.py:72-98 | the defaults neither make a configuration valid nor invalid |
| Node2VecConfig.IsValidConfig | adbnx_adapter/adbnx_adapter/node2vec/imdb_networkx_arango_adapter.py:72-98 | valid iff host, dbName, username, password and load_data are present; the caller's dictionary gains the two defaults, in that order, where missing |
| Node2VecConfig.PartitionPlaces | adbnx_adapter/adbnx_adapter/node2vec/imdb_networkx_arango_adapter.py:65-69 | each key lands in exactly one section with its value: load_data in `queries`, every other key in `arangodb` |
| Node2VecConfig.ConfiguredHasConnection | amlnx_adapter/amlnx_adapter/graph_params.py:17-45 | an accepted configuration yields an `arangodb` section with host, port and protocol and a `queries` section with the data query |
| Node2VecConfig.Node2VecAdapter.constructor | adbnx_adapter/adbnx_adapter/node2vec/imdb_networkx_arango_adapter.py:20-38 | an invalid configuration leaves `cfg` None; a valid one is defaulted and split into its sections |
| Node2VecConfig.Node2VecAdapter.CreateGraphConfig | adbnx_adapter/adbnx_adapter/node2vec/imdb_networkx_arango_adapter.py:58-70 | the loop sets `cfg` to the partition of all keys |

## Left out

- The ArangoDB client: connecting, AQL execution and `import_bulk` are not
  modelled as I/O. A collection query is a function parameter from
  (collection, attributes, is_keep) to documents, and `import_bulk` appends
  to a log. The AQL text of `__fetch_adb_docs` is therefore not modelled
  for the current and earlier adapters; that of the first adapter is.
- `has_collection`, `create_collection`, `delete_graph` and `create_graph`
  (adapter.py:256-272) only create server-side structures. They are left
  out, and so is the returned `ArangoDBGraph` object.
- `arangodb_graph_to_networkx` (both adapters): it reads the graph
  definition from the server and then only calls
  `arangodb_collections_to_networkx`, which is modelled.
- The cuGraph export (adapter.py:328-455): it depends on the optional
  `cudf`/`cugraph` packages.
- The DGL adapters, the node2vec `create_networkx_graph`, YAML
  `read_data`/`save_graph_config` and `set_db_connection`: these are file
  and database I/O outside the core.
- `print` output.
- Floats among node ids, and `str` of a tuple element that is itself a
  float: `PyValue` has no floats.
- NetworkX's handling of a `None` node id in `add_nodes_from` and
  `add_edges_from` (depending on the release, one merged node `None` or
  `ValueError`) is not modelled: the export ends with the node and edge
  lists it hands to NetworkX.
- Python dictionary keys that compare equal across types (`1 == True`, so
  `d[1]` and `d[True]` are one entry) are distinct keys in the model:
  `PyInt(1)` and `PyBool(true)` are different `PyValue`s.
- The earlier controller's key helper
  (adbnx_adapter/adbnx_adapter/adbnx_controller.py:148) reads
  `self.VALID_KEY_CHARS`, which adbnx_adapter/adbnx_adapter/abc.py does not
  define. The model assumes the set of adbnx_adapter/abc.py:112-131, the
  one the current controller uses.
- `isalnum` is taken to be ASCII letters and digits. Unicode letters that
  Python also accepts are not modelled.
- adapter.py:53-55: the `issubclass` check for the controller type is left
  out. The controller is always a `Hooks` record.
- The current adapter calls `_identify_networkx_node(nx_id, nx_node)`, while
  controller.py declares it with an extra `adb_v_cols` argument; the other
  routing hooks have the same kind of mismatch. The adapter's call shape is
  the one modelled (`Controller.AsCalledByAdapter`). The declared
  signatures are modelled separately, in `Controller`.
- NetworkX iteration order: the import takes the order of nodes and edges
  as given (`GraphValue.order`, `GraphValue.edges`), and the export returns
  nodes and edges as sequences, so NetworkX's own de-duplication of
  `add_nodes_from` is not modelled.
- FirstAdapter.AddNode: NetworkX's node and adjacency order in the
  `DiGraph` is not kept. Nodes are a map and edges a set.
- FirstAdapter.CreateSpec: the partial graph built before an exception is
  not part of the result. It is a local variable that nothing sees again.
- Node2VecConfig.Node2VecAdapter.constructor: the `graph_config is None`
  branch reads a YAML file and is left out. The constructor requires a
  dictionary.
- `set.pop()` on the homogeneous path picks an unspecified element; the
  model picks one nondeterministically. Python's choice is not modelled.
- A routing or key hook that writes into the dictionary it is given is not
  modelled. The identify and keyify hooks receive the live node or edge data
  (adapter.py:277-283 and 307-314; adbnx_adapter/adbnx_adapter/adbnx_adapter.py:216-230),
  so such a write would change the graph's data and the buffered document.
  The model assumes these hooks leave their dictionary arguments unchanged.
- The required key sets `CONNECTION_ATRIBS`, `METAGRAPH_ATRIBS` and
  `EDGE_DEFINITION_ATRIBS` are read by adapter.py:52, 112, 245 and 377, but
  adbnx_adapter/abc.py does not define them. The earlier base class
  (adbnx_adapter/adbnx_adapter/abc.py:45-51) defines only `CONNECTION_ATRIBS`
  and `GRAPH_ATRIBS`, so adbnx_adapter/adbnx_adapter/adbnx_adapter.py:193
  would raise AttributeError at its first edge definition. The model assumes
  `{"hostname", "username", "password", "dbName"}` for connections,
  `{"vertexCollections", "edgeCollections"}` for metagraphs (the earlier
  `GRAPH_ATRIBS`, as documented at adapter.py:97-110) and
  `{"edge_collection", "from_vertex_collections", "to_vertex_collections"}`
  for edge definitions (as documented at adapter.py:212-215). The earlier
  adapter's AttributeError is not modelled.
- LegacyAdapter.LegacyController.constructor: the base class that would create
  `adb_map` and `nx_map` is not part of this model. adbnx_adapter/adbnx_adapter/adbnx_controller.py:3
  imports `ADBNX_Controller` from `.abc`, which defines only the adapter base,
  and `Base_ADBNX_Controller` has no `__init__`. The model assumes both maps
  start empty. The contracts of the earlier adapter's import and export
  (`LegacyAdapter.Adapter.NetworkxToArangodb`, `LegacyAdapter.Adapter.ArangodbToNetworkx`,
  `LegacyAdapter.LegacyRunImport`) are stated over the maps as they are when
  the call starts, so they hold for any starting maps.
- PyValues.Repr: a string is always quoted with single quotes and nothing is
  escaped. Python's `repr` switches to double quotes when the string holds a
  `'` and escapes `\` and control characters. This shows in the key that
  `TupleToArangodbKey` builds from a nested tuple holding such a string.
- FirstAdapter.ArangoNetworkxAdapter.constructor: only an adapter that
  connected is modelled. When `is_valid_conn` fails, `__init__`
  (adbnx_adapter/adbnx_adapter/arangoDB_networkx_adapter.py:17-38) returns
  without setting `self.db`, and a later `create_networkx_graph` raises
  AttributeError; that object is not modelled.

## Findings

| source | as written | input that shows it | evidently intended | confidence | as-written member | corrected member |
|---|---|---|---|---|---|---|
| adbnx_adapter/adbnx_adapter/arangoDB_networkx_adapter.py:43-44 | `is_valid_conn` only reports a missing hostname and still returns True, so `__init__` reads `conn["hostname"]` and raises KeyError | `{"username": "root", "password": "pw", "dbName": "db"}` | a dictionary without hostname is refused like one without credentials, as the later adapters do | high, not executed | FirstAdapter.InitWithoutHostnameExample | FirstAdapter.InitFixed |
| adbnx_adapter/adapter.py:125 | the node id is the return value of `_prepare_arangodb_vertex`, and the default controller's hook returns None, although its documentation (adbnx_adapter/controller.py:22-25) says the vertex's `_id` is used unless the hook changes it | vertices with `_id` "a/1" and "a/2" exported with the default controller: both are handed to `add_nodes_from` under the id None | each vertex becomes the node named by its `_id` | high, not executed | AdbnxAdapter.DefaultControllerNodeIds | AdbnxAdapter.DocumentedControllerNodeIds |
