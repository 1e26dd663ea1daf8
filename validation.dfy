/**
 * `__validate_attributes`: a dictionary given by the caller must carry every
 * required key; otherwise a ValueError names the keys that are missing. The
 * required key sets of the adapters are defined here.
 */
module Validation {
  import opened PyValues

  /** The keys a connection dictionary must have. */
  const ConnectionAtribs: set<string> := {"hostname", "username", "password", "dbName"}

  /** The keys a metagraph (graph attributes) must have. */
  const MetagraphAtribs: set<string> := {"vertexCollections", "edgeCollections"}

  /** The keys every edge definition must have. */
  const EdgeDefinitionAtribs: set<string> :=
    {"edge_collection", "from_vertex_collections", "to_vertex_collections"}

  /** Passes exactly when every required key is given; otherwise fails with a
      ValueError naming the required keys that are not given, of which there
      is at least one. */
  function ValidateAttributes(kind: string, attributes: set<string>, validAttributes: set<string>): (r: Outcome)
    ensures r.Pass? <==> validAttributes <= attributes
    ensures r.Fail? ==> r.error.ValueError? && r.error.context == kind
    ensures r.Fail? ==> r.error.missing <= validAttributes && r.error.missing !! attributes
    ensures r.Fail? ==> r.error.missing != {} && validAttributes <= attributes + r.error.missing
  {
    if validAttributes <= attributes then Pass
    else
      var missing := validAttributes - attributes;
      assert missing != {} by {
        var a :| a in validAttributes && a !in attributes;
        assert a in missing;
      }
      Fail(ValueError(kind, missing))
  }

  /** A connection without credentials is refused, and the refusal names them. */
  lemma ConnectionNeedsCredentials(conn: set<string>)
    requires "username" !in conn || "password" !in conn
    ensures ValidateAttributes("connection", conn, ConnectionAtribs).Fail?
    ensures "username" !in conn ==> "username" in ValidateAttributes("connection", conn, ConnectionAtribs).error.missing
    ensures "password" !in conn ==> "password" in ValidateAttributes("connection", conn, ConnectionAtribs).error.missing
  {
  }
}
