/**
 * Connecting to ArangoDB: both adapters check the connection dictionary with
 * `__validate_attributes` and build the URL handed to `ArangoClient` as
 * `protocol + "://" + host + ":" + port`, with "https" and 8529 as defaults.
 * The client itself is not part of this model; a connection is the URL and
 * the three values passed to `client.db(...)`.
 */
module Connections {
  import opened PyValues
  import opened AdbIds
  import opened Validation

  /** What `ArangoClient(hosts=url).db(db_name, username, password)` is given. */
  datatype Connection = Connection(url: string, dbName: PyValue, username: PyValue, password: PyValue)

  /** `d.get(k, default)`. */
  function GetOr(d: Json, k: string, default: PyValue): (r: PyValue)
    ensures k in d ==> r == d[k]
    ensures k !in d ==> r == default
  {
    if k in d then d[k] else default
  }

  /** A value used as the left operand of `+ "..."`: only a str can be. */
  function AsStr(v: PyValue): (r: Result<string>)
    ensures r.Ok? <==> v.PyStr?
    ensures r.Ok? ==> r.value == v.s
    ensures r.Err? ==> r.error == TypeError
  {
    if v.PyStr? then Ok(v.s) else Err(TypeError)
  }

  /** `protocol + "://" + host + ":" + port` with `protocol =
      conn.get("protocol", "https")` and `port = str(conn.get("port", 8529))`;
      a protocol or a host that is not a str raises TypeError. */
  function ConnectionUrl(conn: Json): (r: Result<string>)
    requires "hostname" in conn
  {
    var protocol :- AsStr(GetOr(conn, "protocol", PyStr("https")));
    var host :- AsStr(conn["hostname"]);
    var port := Str(GetOr(conn, "port", PyInt(8529)));
    Ok(protocol + "://" + host + ":" + port)
  }

  /** `ADBNX_Adapter.__init__` (adapter.py) and `ADBNX_Adapter.__init__` of the
      earlier adapter: refuse a dictionary without hostname, username, password
      and dbName, then connect. */
  function Connect(conn: Json): (r: Result<Connection>)
    ensures r.Ok? <==> ConnectionAtribs <= conn.Keys && ConnectionUrl(conn).Ok?
    ensures r.Ok? ==>
      r.value == Connection(ConnectionUrl(conn).value, conn["dbName"], conn["username"], conn["password"])
    ensures !(ConnectionAtribs <= conn.Keys) ==>
      r.Err? && r.error == ValueError("connection", ConnectionAtribs - conn.Keys)
  {
    match ValidateAttributes("connection", conn.Keys, ConnectionAtribs)
    case Fail(e) => Err(e)
    case Pass =>
      var url :- ConnectionUrl(conn);
      Ok(Connection(url, conn["dbName"], conn["username"], conn["password"]))
  }

  /** The URL is well-formed when its protocol and host are strings, and it
      falls apart at its colons into protocol, "//" + host and port when none
      of the three holds a colon. */
  lemma UrlParts(conn: Json)
    requires "hostname" in conn && GetOr(conn, "protocol", PyStr("https")).PyStr? && conn["hostname"].PyStr?
    requires var protocol, host, port := GetOr(conn, "protocol", PyStr("https")).s, conn["hostname"].s,
                                         Str(GetOr(conn, "port", PyInt(8529)));
      ':' !in protocol && ':' !in host && ':' !in port
    ensures ConnectionUrl(conn).Ok?
    ensures Split(ConnectionUrl(conn).value, ':')
      == [GetOr(conn, "protocol", PyStr("https")).s, "//" + conn["hostname"].s, Str(GetOr(conn, "port", PyInt(8529)))]
  {
    var protocol, host, port := GetOr(conn, "protocol", PyStr("https")).s, conn["hostname"].s,
                                Str(GetOr(conn, "port", PyInt(8529)));
    var url := ConnectionUrl(conn).value;
    assert url == protocol + [':'] + (("//" + host) + [':'] + port);
    assert ':' !in "//" + host by {
      assert forall k :: 0 <= k < |"//" + host| ==> ("//" + host)[k] == '/' || ("//" + host)[k] in host;
    }
    SplitAround(protocol, ("//" + host) + [':'] + port, ':');
    SplitAround("//" + host, port, ':');
    SplitNoSeparator(port, ':');
  }

  /** Without "protocol" and "port" the URL is `"https://" + host + ":8529"`. */
  lemma DefaultUrl(conn: Json)
    requires "hostname" in conn && conn["hostname"].PyStr?
    requires "protocol" !in conn && "port" !in conn
    ensures ConnectionUrl(conn) == Ok("https://" + conn["hostname"].s + ":8529")
  {
    assert NatToDecimal(8) == "8";
    assert NatToDecimal(85) == "85";
    assert NatToDecimal(852) == "852";
    assert NatToDecimal(8529) == "8529";
    var host := conn["hostname"].s;
    assert Str(GetOr(conn, "port", PyInt(8529))) == "8529";
    assert "https" + "://" + host + ":" + "8529" == "https://" + host + ":8529";
  }
}
