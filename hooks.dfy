/**
 * The controller as the adapters call it. A controller decides, for every
 * document that crosses between ArangoDB and NetworkX, which NetworkX id a
 * vertex gets, which collection a node or an edge goes to and which `_key` it
 * receives. The two prepare hooks may modify the dictionary they are given,
 * so they are modelled as functions returning their value and the dictionary
 * as they leave it. The four routing and key hooks return only the collection
 * or the key: they are assumed to leave their dictionary arguments as they
 * are. A hook that raises returns the exception.
 */
module ControllerHooks {
  import opened PyValues

  datatype Hooks = Hooks(
    /** `_prepare_arangodb_vertex(adb_vertex, col)`: the NetworkX node id for the
        vertex, and the vertex as the hook leaves it. */
    prepareVertex: (Json, string) -> Result<(NxId, Json)>,
    /** `_prepare_arangodb_edge(adb_edge, col)`: the edge as the hook leaves it. */
    prepareEdge: (Json, string) -> Result<Json>,
    /** `_identify_networkx_node(nx_id, nx_node)`: the vertex collection. */
    identifyNode: (NxId, Json) -> Result<string>,
    /** `_keyify_networkx_node(nx_id, nx_node, col)`: the `_key`. */
    keyifyNode: (NxId, Json, string) -> Result<string>,
    /** `_identify_networkx_edge(nx_edge, from_node, to_node)`: the edge collection. */
    identifyEdge: (Json, Json, Json) -> Result<string>,
    /** `_keyify_networkx_edge(nx_edge, from_node, to_node, col)`: the `_key`. */
    keyifyEdge: (Json, Json, Json, string) -> Result<string>)
}
