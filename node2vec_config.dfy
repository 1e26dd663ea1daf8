/**
 * The configuration step of the IMDB node2vec adapter
 * (node2vec/imdb_networkx_arango_adapter.py). A flat configuration
 * dictionary is checked by `is_valid_config`, which also writes the two
 * connection defaults into it, and `create_graph_config` splits it into the
 * `arangodb` section (connection settings) and the `queries` section (the
 * query that loads the data). The key names are those of `GraphParams`.
 */
module Node2VecConfig {
  import opened PyValues

  const DbServiceHost := "DB_service_host"
  const DbDataQuery := "load_data"
  const DbServicePort := "DB_service_port"
  const DbName := "dbName"
  const DbUserName := "username"
  const DbPassword := "password"
  const DbConnProtocol := "conn_protocol"

  /** A Python dict from str: its keys in insertion order and its values. */
  class PyDict {
    var keys: seq<string>
    var values: map<string, PyValue>

    /** Each key listed once, and exactly the keys with a value listed. */
    ghost predicate Valid()
      reads this
    {
      Distinct(keys) && forall k :: k in values <==> k in keys
    }

    constructor (keys: seq<string>, values: map<string, PyValue>)
      requires Distinct(keys) && forall k :: k in values <==> k in keys
      ensures Valid() && this.keys == keys && this.values == values
    {
      this.keys := keys;
      this.values := values;
    }

    /** `d[k] = v`: a new key goes to the end of the order. */
    method Put(k: string, v: PyValue)
      requires Valid()
      modifies this
      ensures Valid()
      ensures values == old(values)[k := v]
      ensures keys == if k in old(values) then old(keys) else old(keys) + [k]
    {
      if k !in values {
        keys := keys + [k];
      }
      values := values[k := v];
    }
  }

  /** What `is_valid_config` accepts: host, database name, user name,
      password and the data query present. Port and protocol have defaults. */
  predicate ConfigValid(keys: set<string>) {
    DbServiceHost in keys && DbName in keys && DbUserName in keys && DbPassword in keys && DbDataQuery in keys
  }

  /** The values after `is_valid_config`: port 8529 and protocol 'https'
      where they were missing. */
  function WithDefaults(values: map<string, PyValue>): map<string, PyValue> {
    var withPort := if DbServicePort in values then values else values[DbServicePort := PyInt(8529)];
    if DbConnProtocol in withPort then withPort else withPort[DbConnProtocol := PyStr("https")]
  }

  /** The key order after `is_valid_config`: the port, then the protocol, each
      appended only if it was missing. */
  function WithDefaultKeys(keys: seq<string>, values: map<string, PyValue>): seq<string> {
    keys + (if DbServicePort in values then [] else [DbServicePort])
      + (if DbConnProtocol in values then [] else [DbConnProtocol])
  }

  /** Keys already there keep their values, port and protocol are always
      there afterwards, and no other key is added. */
  lemma DefaultsNeverOverwrite(values: map<string, PyValue>)
    ensures var r := WithDefaults(values);
      (forall k :: k in values ==> k in r && r[k] == values[k])
      && r.Keys == values.Keys + {DbServicePort, DbConnProtocol}
      && (DbServicePort !in values ==> r[DbServicePort] == PyInt(8529))
      && (DbConnProtocol !in values ==> r[DbConnProtocol] == PyStr("https"))
  {
    assert DbServicePort != DbConnProtocol;
  }

  /** Filling in the defaults twice changes nothing the second time. */
  lemma DefaultsIdempotent(keys: seq<string>, values: map<string, PyValue>)
    ensures WithDefaults(WithDefaults(values)) == WithDefaults(values)
    ensures WithDefaultKeys(WithDefaultKeys(keys, values), WithDefaults(values)) == WithDefaultKeys(keys, values)
  {
    DefaultsNeverOverwrite(values);
  }

  /** The defaults neither make a dictionary valid nor invalid: both keys
      they add are optional. */
  lemma DefaultsKeepValidity(values: map<string, PyValue>)
    ensures ConfigValid(WithDefaults(values).Keys) <==> ConfigValid(values.Keys)
  {
    DefaultsNeverOverwrite(values);
  }

  /** `is_valid_config(graph_config)`: the verdict, with the two defaults
      written into the caller's dictionary. */
  method IsValidConfig(graphConfig: PyDict) returns (valid: bool)
    requires graphConfig.Valid()
    modifies graphConfig
    ensures graphConfig.Valid()
    ensures valid <==> ConfigValid(old(graphConfig.values).Keys)
    ensures graphConfig.values == WithDefaults(old(graphConfig.values))
    ensures graphConfig.keys == WithDefaultKeys(old(graphConfig.keys), old(graphConfig.values))
  {
    valid := true;
    if DbServiceHost !in graphConfig.values {
      valid := false;
    }
    if DbName !in graphConfig.values {
      valid := false;
    }
    if DbServicePort !in graphConfig.values {
      graphConfig.Put(DbServicePort, PyInt(8529));
    }
    if DbUserName !in graphConfig.values {
      valid := false;
    }
    if DbPassword !in graphConfig.values {
      valid := false;
    }
    if DbConnProtocol !in graphConfig.values {
      graphConfig.Put(DbConnProtocol, PyStr("https"));
    }
    if DbDataQuery !in graphConfig.values {
      valid := false;
    }
  }

  /** `self.cfg`: the `arangodb` and the `queries` sections. */
  datatype Config = Config(arangodb: map<string, PyValue>, queries: map<string, PyValue>)

  /** `cfg` after the first n items of `graph_params.items()`: the data query
      goes to `queries`, every other key to `arangodb`. */
  function Partition(keys: seq<string>, values: map<string, PyValue>, n: nat): Config
    requires n <= |keys| && forall k :: k in keys ==> k in values
    decreases n
  {
    if n == 0 then Config(map[], map[])
    else
      var c := Partition(keys, values, n - 1);
      var k := keys[n - 1];
      if k == DbDataQuery then c.(queries := c.queries[k := values[k]])
      else c.(arangodb := c.arangodb[k := values[k]])
  }

  /** Each of the first n keys lands in exactly one section, with its value
      unchanged: the data query in `queries`, every other key in `arangodb`;
      no other key appears. */
  lemma {:induction false} PartitionPlaces(keys: seq<string>, values: map<string, PyValue>, n: nat)
    requires n <= |keys| && forall k :: k in keys ==> k in values
    ensures var c := Partition(keys, values, n);
      (forall k :: k in c.queries <==> k in keys[..n] && k == DbDataQuery)
      && (forall k :: k in c.arangodb <==> k in keys[..n] && k != DbDataQuery)
      && (forall k :: k in c.queries ==> c.queries[k] == values[k])
      && (forall k :: k in c.arangodb ==> c.arangodb[k] == values[k])
    decreases n
  {
    if n > 0 {
      PartitionPlaces(keys, values, n - 1);
      assert keys[..n] == keys[..n - 1] + [keys[n - 1]];
    }
  }

  /** A dictionary that `is_valid_config` accepted leaves `cfg['arangodb']`
      with a port and a protocol, and `cfg['queries']` with the data query. */
  lemma ConfiguredHasConnection(keys: seq<string>, values: map<string, PyValue>)
    requires Distinct(keys) && (forall k :: k in values <==> k in keys) && ConfigValid(values.Keys)
    ensures var ks := WithDefaultKeys(keys, values);
      var vs := WithDefaults(values);
      (forall k :: k in ks ==> k in vs)
      && var c := Partition(ks, vs, |ks|);
      DbServicePort in c.arangodb && DbConnProtocol in c.arangodb && DbServiceHost in c.arangodb
      && DbDataQuery in c.queries && c.queries[DbDataQuery] == values[DbDataQuery]
  {
    var ks := WithDefaultKeys(keys, values);
    var vs := WithDefaults(values);
    DefaultsNeverOverwrite(values);
    assert DbServicePort in ks && DbConnProtocol in ks;
    PartitionPlaces(ks, vs, |ks|);
    assert ks[..|ks|] == ks;
  }

  /** The part of `IMDB_Networkx_Adapter` that the configuration step sets:
      `self.cfg`, None until a configuration is created. */
  class Node2VecAdapter {
    var cfg: Option<Config>

    /** `__init__(graph_config)` with a configuration given: an invalid one
        leaves `cfg` None, a valid one is split into its sections. */
    constructor (graphConfig: PyDict)
      requires graphConfig.Valid()
      modifies graphConfig
      ensures graphConfig.Valid()
      ensures graphConfig.values == WithDefaults(old(graphConfig.values))
      ensures graphConfig.keys == WithDefaultKeys(old(graphConfig.keys), old(graphConfig.values))
      ensures !ConfigValid(old(graphConfig.values).Keys) ==> cfg == None
      ensures ConfigValid(old(graphConfig.values).Keys) ==>
        cfg == Some(Partition(graphConfig.keys, graphConfig.values, |graphConfig.keys|))
    {
      cfg := None;
      new;
      var valid := IsValidConfig(graphConfig);
      if valid {
        CreateGraphConfig(graphConfig);
      }
    }

    /** `create_graph_config(graph_params)`. */
    method CreateGraphConfig(graphParams: PyDict)
      requires graphParams.Valid()
      modifies this
      ensures cfg == Some(Partition(graphParams.keys, graphParams.values, |graphParams.keys|))
    {
      cfg := Some(Config(map[], map[]));
      for i := 0 to |graphParams.keys|
        invariant cfg == Some(Partition(graphParams.keys, graphParams.values, i))
      {
        var key := graphParams.keys[i];
        var value := graphParams.values[key];
        var c := cfg.value;
        if key == DbDataQuery {
          cfg := Some(c.(queries := c.queries[key := value]));
        } else {
          cfg := Some(c.(arangodb := c.arangodb[key := value]));
        }
      }
    }
  }
}
