/**
 * `execute_query`: the request the handler sends to the RDS Data API
 * `execute_statement` call. The call itself is a parameter of the model, a
 * function from the request to what the client returns or raises.
 */
module DataApi {
  import opened Runtime

  /** The settings read from the environment at start-up. */
  datatype Config = Config(clusterArn: string, readonlySecretArn: string, dbName: string)

  /** A request dict, as its ordered (key, value) pairs. */
  type Request = seq<(string, Json)>

  /** The Data API client's `execute_statement`, given the request's keyword arguments. */
  type Executor = Request -> Outcome<Json>

  /** The keys a request holds. */
  function Keys(request: Request): set<string>
  {
    set k | 0 <= k < |request| :: request[k].0
  }

  /** The request `execute_query(sql, parameters, as_json)` sends. */
  function RequestFor(config: Config, sql: Json, parameters: seq<Json>, asJson: bool): Request
  {
    BaseRequest(config, sql)
    + (if |parameters| > 0 then [("parameters", JList(parameters))] else [])
    + (if asJson then [("formatRecordsAs", JStr("JSON"))] else [])
  }

  /** The pairs every request starts from. */
  function BaseRequest(config: Config, sql: Json): Request
  {
    [("resourceArn", JStr(config.clusterArn)), ("secretArn", JStr(config.readonlySecretArn)),
     ("database", JStr(config.dbName)), ("sql", sql)]
  }

  /** What the fixed pairs give for each key a request may hold. */
  lemma BaseRequestLookups(config: Config, sql: Json)
    ensures var base := BaseRequest(config, sql);
      && Lookup(base, "resourceArn") == Some(JStr(config.clusterArn))
      && Lookup(base, "secretArn") == Some(JStr(config.readonlySecretArn))
      && Lookup(base, "database") == Some(JStr(config.dbName))
      && Lookup(base, "sql") == Some(sql)
      && Lookup(base, "parameters") == None
      && Lookup(base, "formatRecordsAs") == None
  {
    var base := BaseRequest(config, sql);
    LookupAt(base, 0);
    LookupAt(base, 1);
    LookupAt(base, 2);
    LookupAt(base, 3);
    LookupAbsent(base, "parameters");
    LookupAbsent(base, "formatRecordsAs");
  }

  /**
   * The four fixed keys are always set, `parameters` only for a non-empty
   * list and `formatRecordsAs` only when JSON records are asked for.
   */
  lemma RequestForLookups(config: Config, sql: Json, parameters: seq<Json>, asJson: bool)
    ensures var request := RequestFor(config, sql, parameters, asJson);
      && Lookup(request, "resourceArn") == Some(JStr(config.clusterArn))
      && Lookup(request, "secretArn") == Some(JStr(config.readonlySecretArn))
      && Lookup(request, "database") == Some(JStr(config.dbName))
      && Lookup(request, "sql") == Some(sql)
      && Lookup(request, "parameters") == (if |parameters| > 0 then Some(JList(parameters)) else None)
      && Lookup(request, "formatRecordsAs") == (if asJson then Some(JStr("JSON")) else None)
  {
    var base := BaseRequest(config, sql);
    BaseRequestLookups(config, sql);
    var withParameters := base + (if |parameters| > 0 then [("parameters", JList(parameters))] else []);
    if |parameters| > 0 {
      forall key ensures Lookup(withParameters, key) == if key == "parameters" then Some(JList(parameters)) else Lookup(base, key) {
        LookupAppend(base, "parameters", JList(parameters), key);
      }
    } else {
      assert withParameters == base;
    }
    if asJson {
      forall key ensures Lookup(withParameters + [("formatRecordsAs", JStr("JSON"))], key)
                         == if key == "formatRecordsAs" then Some(JStr("JSON")) else Lookup(withParameters, key) {
        LookupAppend(withParameters, "formatRecordsAs", JStr("JSON"), key);
      }
      assert RequestFor(config, sql, parameters, asJson) == withParameters + [("formatRecordsAs", JStr("JSON"))];
    } else {
      assert RequestFor(config, sql, parameters, asJson) == withParameters;
    }
  }

  /** The keys a request holds: the four fixed ones and the optional ones that apply. */
  lemma RequestForKeys(config: Config, sql: Json, parameters: seq<Json>, asJson: bool)
    ensures Keys(RequestFor(config, sql, parameters, asJson))
            == {"resourceArn", "secretArn", "database", "sql"}
               + (if |parameters| > 0 then {"parameters"} else {})
               + (if asJson then {"formatRecordsAs"} else {})
  {
    var request := RequestFor(config, sql, parameters, asJson);
    var n := |request|;
    assert request[0].0 in Keys(request) && request[1].0 in Keys(request);
    assert request[2].0 in Keys(request) && request[3].0 in Keys(request);
    assert request[n - 1].0 in Keys(request);
    if |parameters| > 0 {
      assert request[4].0 in Keys(request);
    }
  }

  /**
   * `execute_query` (index.py:264-287): start from the four fixed keys, add
   * the optional ones in place, send the request; an exception from the
   * client is re-raised unchanged.
   */
  method ExecuteQuery(config: Config, sql: Json, parameters: seq<Json>, asJson: bool, execute: Executor)
    returns (request: Request, response: Outcome<Json>)
    ensures request == RequestFor(config, sql, parameters, asJson)
    ensures response == execute(request)
  {
    var requestParams := BaseRequest(config, sql);
    if |parameters| > 0 {
      requestParams := requestParams + [("parameters", JList(parameters))];
    }
    if asJson {
      requestParams := requestParams + [("formatRecordsAs", JStr("JSON"))];
    }
    request := requestParams;
    response := execute(request);
  }
}
