/**
 * `handle_generate` and `handle_execute`: find the named property, check it,
 * call out, and turn every outcome into an envelope. Each handler is a method
 * proved equal to a specification function (`GenerateResponse`,
 * `ExecuteResponse`); what the handlers promise is proved about those
 * functions.
 */
module Handlers {
  import opened Text
  import opened Runtime
  import opened Guard
  import opened Envelope
  import opened DataApi
  import opened Translator

  const GeneratePath := JStr("/generate")
  const ExecutePath := JStr("/execute")
  const PromptRequired := "Prompt parameter is required"
  const QueryRequired := "Query parameter is required"

  /** `prop.get("name") == name`, for a property that is a dict. */
  predicate Named(prop: Json, name: string)
  {
    prop.JDict? && Lookup(prop.fields, "name") == Some(JStr(name))
  }

  /** `prop.get("value")`. */
  function ValueOf(prop: Json): Json
    requires prop.JDict?
  {
    GetOrNone(prop.fields, "value")
  }

  /**
   * The loop `for prop in items: if prop.get("name") == name: found = prop.get("value")`:
   * the value of the last property with that name, or `AttributeError` at the
   * first item that is not a dict.
   */
  function ScanItems(items: seq<Json>, name: string): Outcome<Option<Json>>
    decreases |items|
  {
    if items == [] then Returned(None)
    else
      var before := ScanItems(items[..|items| - 1], name);
      var prop := items[|items| - 1];
      if before.Raised? then before
      else if !prop.JDict? then Raised(AttributeError(TypeName(prop), "get"))
      else if Named(prop, name) then Returned(Some(ValueOf(prop)))
      else before
  }

  /**
   * The same loop over `properties` itself: a list gives its items, a string
   * its one-character strings and a dict its string keys (none of which has
   * a `get`); anything else is not iterable.
   */
  function PropertyValue(properties: Json, name: string): Outcome<Option<Json>>
  {
    match properties
    case JList(items) => ScanItems(items, name)
    case JStr(s) => if s == "" then Returned(None) else Raised(AttributeError("str", "get"))
    case JDict(fields) => if fields == [] then Returned(None) else Raised(AttributeError("str", "get"))
    case _ => Raised(NotIterable(TypeName(properties)))
  }

  /** Once the scan of a prefix has raised, the scan of the whole list raises the same exception. */
  lemma {:induction false} ScanRaisedPrefix(items: seq<Json>, m: nat, name: string)
    requires m <= |items| && ScanItems(items[..m], name).Raised?
    ensures ScanItems(items, name) == ScanItems(items[..m], name)
    decreases |items|
  {
    if m < |items| {
      var init := items[..|items| - 1];
      assert init[..m] == items[..m];
      ScanRaisedPrefix(init, m, name);
    } else {
      assert items[..m] == items;
    }
  }

  /** The scan raises at the first item that is not a dict. */
  lemma {:induction false} ScanRaisesAtFirstNonDict(items: seq<Json>, j: nat, name: string)
    requires j < |items| && !items[j].JDict?
    requires forall k :: 0 <= k < j ==> items[k].JDict?
    ensures ScanItems(items, name) == Raised(AttributeError(TypeName(items[j]), "get"))
  {
    ScanOfDicts(items[..j], name);
    assert items[..j + 1][..j] == items[..j];
    ScanRaisedPrefix(items, j + 1, name);
  }

  /** Over a list of dicts the scan returns, and finds something exactly when some property has the name. */
  lemma {:induction false} ScanOfDicts(items: seq<Json>, name: string)
    requires forall k :: 0 <= k < |items| ==> items[k].JDict?
    ensures ScanItems(items, name).Returned?
    ensures ScanItems(items, name).value.Some? <==> exists k :: 0 <= k < |items| && Named(items[k], name)
    decreases |items|
  {
    if items != [] {
      var init := items[..|items| - 1];
      ScanOfDicts(init, name);
      if k :| 0 <= k < |items| && Named(items[k], name) {
        if k < |items| - 1 {
          assert init[k] == items[k];
        }
      }
      if k :| 0 <= k < |init| && Named(init[k], name) {
        assert items[k] == init[k];
      }
    }
  }

  /** The last property with the name wins: earlier ones are overwritten by the loop. */
  lemma {:induction false} ScanLastWins(items: seq<Json>, j: nat, name: string)
    requires forall k :: 0 <= k < |items| ==> items[k].JDict?
    requires j < |items| && Named(items[j], name)
    requires forall k :: j < k < |items| ==> !Named(items[k], name)
    ensures ScanItems(items, name) == Returned(Some(ValueOf(items[j])))
    decreases |items|
  {
    var init := items[..|items| - 1];
    if j < |items| - 1 {
      ScanLastWins(init, j, name);
    } else {
      ScanOfDicts(init, name);
    }
  }

  /**
   * The lookup loop of both handlers (index.py:293-295 and 330-332): it scans
   * every property without stopping, so the last match is kept.
   */
  method FindProperty(properties: Json, name: string) returns (r: Outcome<Option<Json>>)
    ensures r == PropertyValue(properties, name)
  {
    var items: seq<Json>;
    match properties {
      case JList(xs) =>
        items := xs;
      case JStr(s) =>
        items := seq(|s|, i requires 0 <= i < |s| => JStr([s[i]]));
      case JDict(fields) =>
        items := seq(|fields|, i requires 0 <= i < |fields| => JStr(fields[i].0));
      case _ =>
        return Raised(NotIterable(TypeName(properties)));
    }
    var found: Option<Json> := None;
    var i := 0;
    while i < |items|
      invariant 0 <= i <= |items|
      invariant ScanItems(items[..i], name) == Returned(found)
    {
      var prop := items[i];
      assert items[..i + 1][..i] == items[..i];
      if !prop.JDict? {
        ScanRaisedPrefix(items, i + 1, name);
        r := Raised(AttributeError(TypeName(prop), "get"));
        if !properties.JList? {
          ScanRaisesAtFirstNonDict(items, 0, name);
        }
        return;
      }
      if Lookup(prop.fields, "name") == Some(JStr(name)) {
        found := Some(GetOrNone(prop.fields, "value"));
      }
      i := i + 1;
    }
    assert items[..i] == items;
    r := Returned(found);
  }

  /** What `handle_generate(properties, action_group)` returns. */
  function GenerateResponse(properties: Json, actionGroup: Json, schema: Schema, model: Model): Json
  {
    match PropertyValue(properties, "prompt")
    case Raised(e) => Error(ServerError, actionGroup, GeneratePath, JStr(ExcText(e)))
    case Returned(None) =>
      // `prompt` is only assigned inside the loop, so reading it raises
      Error(ServerError, actionGroup, GeneratePath, JStr(ExcText(UnboundLocal("prompt"))))
    case Returned(Some(prompt)) =>
      if !Truthy(prompt) then Error(MissingParameter, actionGroup, GeneratePath, JStr(PromptRequired))
      else match Translation(prompt, schema, model)
        case Raised(e) => Error(ServerError, actionGroup, GeneratePath, JStr(ExcText(e)))
        case Returned(query) =>
          match QueryVerdict(JStr(query))
          case Raised(e) => Error(ServerError, actionGroup, GeneratePath, JStr(ExcText(e)))
          case Returned(ok) =>
            if !ok then Error(InvalidQuery, actionGroup, GeneratePath, JStr("Generated query contains forbidden operations"))
            else Success(actionGroup, GeneratePath, [("query", JStr(query))])
  }

  /** Whether `handle_generate` reaches the model call. */
  ghost predicate GenerateCallsModel(properties: Json, schema: Schema)
  {
    match PropertyValue(properties, "prompt")
    case Returned(Some(prompt)) => Truthy(prompt) && ModelReached(prompt, schema)
    case _ => false
  }

  /**
   * `handle_generate` (index.py:290-324): every exception raised in its body
   * becomes a `Server error` envelope. `asked` records whether the model was
   * called.
   */
  method HandleGenerate(properties: Json, actionGroup: Json, schema: Schema, model: Model)
    returns (r: Json, ghost asked: bool)
    ensures r == GenerateResponse(properties, actionGroup, schema, model)
    ensures asked <==> GenerateCallsModel(properties, schema)
  {
    asked := false;
    var found := FindProperty(properties, "prompt");
    if found.Raised? {
      return Error(ServerError, actionGroup, GeneratePath, JStr(ExcText(found.exc))), asked;
    }
    if found.value.None? {
      return Error(ServerError, actionGroup, GeneratePath, JStr(ExcText(UnboundLocal("prompt")))), asked;
    }
    var prompt := found.value.value;
    if !Truthy(prompt) {
      return Error(MissingParameter, actionGroup, GeneratePath, JStr(PromptRequired)), asked;
    }
    var generated;
    generated, asked := GenerateQuery(prompt, schema, model);
    if generated.Raised? {
      return Error(ServerError, actionGroup, GeneratePath, JStr(ExcText(generated.exc))), asked;
    }
    var verdict := ValidateQuery(JStr(generated.value));
    if verdict.Raised? {
      return Error(ServerError, actionGroup, GeneratePath, JStr(ExcText(verdict.exc))), asked;
    }
    if !verdict.value {
      return Error(InvalidQuery, actionGroup, GeneratePath, JStr("Generated query contains forbidden operations")), asked;
    }
    r := Success(actionGroup, GeneratePath, [("query", JStr(generated.value))]);
  }

  /** What `handle_execute(properties, action_group)` returns. */
  function ExecuteResponse(properties: Json, actionGroup: Json, config: Config, execute: Executor): Json
  {
    match PropertyValue(properties, "query")
    case Raised(e) => Error(ServerError, actionGroup, ExecutePath, JStr(ExcText(e)))
    case Returned(found) =>
      var query := if found.Some? then found.value else JNull;
      if !Truthy(query) then Error(MissingParameter, actionGroup, ExecutePath, JStr(QueryRequired))
      else match QueryVerdict(query)
        case Raised(e) => Error(ServerError, actionGroup, ExecutePath, JStr(ExcText(e)))
        case Returned(ok) =>
          if !ok then Error(InvalidQuery, actionGroup, ExecutePath, JStr("Query contains forbidden operations"))
          else match execute(RequestFor(config, query, [], false))
            case Raised(e) => Error(DatabaseError, actionGroup, ExecutePath, JStr(ExcText(e)))
            case Returned(results) => Success(actionGroup, ExecutePath, [("results", results)])
  }

  /** The request `handle_execute` sends to the database, if it sends one. */
  ghost function DatabaseRequest(properties: Json, config: Config): Option<Request>
  {
    match PropertyValue(properties, "query")
    case Returned(Some(query)) =>
      if Truthy(query) && QueryVerdict(query) == Returned(true) then Some(RequestFor(config, query, [], false)) else None
    case _ => None
  }

  /**
   * `handle_execute` (index.py:327-368): a database exception becomes a
   * `Database error` envelope, any other exception a `Server error` one.
   * `issued` records the request sent to the database, if any.
   */
  method HandleExecute(properties: Json, actionGroup: Json, config: Config, execute: Executor)
    returns (r: Json, ghost issued: Option<Request>)
    ensures r == ExecuteResponse(properties, actionGroup, config, execute)
    ensures issued == DatabaseRequest(properties, config)
  {
    issued := None;
    var found := FindProperty(properties, "query");
    if found.Raised? {
      return Error(ServerError, actionGroup, ExecutePath, JStr(ExcText(found.exc))), issued;
    }
    var query := JNull;
    if found.value.Some? {
      query := found.value.value;
    }
    if !Truthy(query) {
      return Error(MissingParameter, actionGroup, ExecutePath, JStr(QueryRequired)), issued;
    }
    var verdict := ValidateQuery(query);
    if verdict.Raised? {
      return Error(ServerError, actionGroup, ExecutePath, JStr(ExcText(verdict.exc))), issued;
    }
    if !verdict.value {
      return Error(InvalidQuery, actionGroup, ExecutePath, JStr("Query contains forbidden operations")), issued;
    }
    var request, results := ExecuteQuery(config, query, [], false, execute);
    issued := Some(request);
    if results.Raised? {
      return Error(DatabaseError, actionGroup, ExecutePath, JStr(ExcText(results.exc))), issued;
    }
    r := Success(actionGroup, ExecutePath, [("results", results.value)]);
  }

  /** A present but falsy prompt gives the 400 missing-parameter envelope, before any model call. */
  lemma GenerateEmptyPrompt(properties: Json, actionGroup: Json, schema: Schema, model: Model, prompt: Json)
    requires PropertyValue(properties, "prompt") == Returned(Some(prompt)) && !Truthy(prompt)
    ensures StatusOf(GenerateResponse(properties, actionGroup, schema, model)) == Some(400)
    ensures ErrorText(GenerateResponse(properties, actionGroup, schema, model))
            == Some("Missing parameter: " + PromptRequired)
    ensures !GenerateCallsModel(properties, schema)
  {
    assert GenerateResponse(properties, actionGroup, schema, model)
           == Error(MissingParameter, actionGroup, GeneratePath, JStr(PromptRequired));
    ErrorWithText(MissingParameter, actionGroup, GeneratePath, PromptRequired);
    MessagePrefixes();
  }

  /** With no `prompt` property at all, reading the unbound local raises, which ends as a 500. */
  lemma GenerateNoPrompt(properties: Json, actionGroup: Json, schema: Schema, model: Model)
    requires PropertyValue(properties, "prompt") == Returned(None)
    ensures StatusOf(GenerateResponse(properties, actionGroup, schema, model)) == Some(500)
    ensures ErrorText(GenerateResponse(properties, actionGroup, schema, model))
            == Some("Server error: " + ExcText(UnboundLocal("prompt")))
    ensures !GenerateCallsModel(properties, schema)
  {
    var text := ExcText(UnboundLocal("prompt"));
    assert GenerateResponse(properties, actionGroup, schema, model) == Error(ServerError, actionGroup, GeneratePath, JStr(text));
    ErrorWithText(ServerError, actionGroup, GeneratePath, text);
    MessagePrefixes();
  }

  /** A generated query containing a blocked operation ends as a 500 naming the first one. */
  lemma GenerateBlockedQuery(properties: Json, actionGroup: Json, schema: Schema, model: Model,
                             prompt: Json, query: string, k: nat)
    requires PropertyValue(properties, "prompt") == Returned(Some(prompt)) && Truthy(prompt)
    requires ModelReached(prompt, schema) && model(schema.value, prompt.s) == Returned(query)
    requires k < |BlockedOperations| && Contains(Lower(query), BlockedOperations[k])
    requires forall j :: 0 <= j < k ==> !Contains(Lower(query), BlockedOperations[j])
    ensures StatusOf(GenerateResponse(properties, actionGroup, schema, model)) == Some(500)
    ensures ErrorText(GenerateResponse(properties, actionGroup, schema, model))
            == Some("Server error: " + (UnauthorizedPrefix + BlockedOperations[k]))
  {
    var text := UnauthorizedPrefix + BlockedOperations[k];
    QueryNamesFirstKeyword(query, k);
    assert Translation(prompt, schema, model) == Returned(query);
    assert GenerateResponse(properties, actionGroup, schema, model) == Error(ServerError, actionGroup, GeneratePath, JStr(text));
    ErrorWithText(ServerError, actionGroup, GeneratePath, text);
    MessagePrefixes();
  }

  /** A clean generated query is returned as it came from the model, with status 200. */
  lemma GenerateCleanQuery(properties: Json, actionGroup: Json, schema: Schema, model: Model,
                           prompt: Json, query: string)
    requires PropertyValue(properties, "prompt") == Returned(Some(prompt)) && Truthy(prompt)
    requires ModelReached(prompt, schema) && model(schema.value, prompt.s) == Returned(query)
    requires !Blocked(query)
    ensures Parse(GenerateResponse(properties, actionGroup, schema, model))
            == Some(ResponseData(actionGroup, GeneratePath, 200, [("query", JStr(query))], "POST"))
  {
    assert Translation(prompt, schema, model) == Returned(query);
    assert QueryVerdict(JStr(query)) == Returned(true);
  }

  /**
   * `handle_generate` answers 200, 400 or 500 and never `Invalid query`: a
   * 400 is always the missing prompt, and a 200 carries a query the model
   * returned for a screened prompt, free of every blocked operation.
   */
  lemma GenerateOutcomes(properties: Json, actionGroup: Json, schema: Schema, model: Model)
    ensures var r := GenerateResponse(properties, actionGroup, schema, model);
      && Parse(r).Some?
      && Parse(r).value.apiPath == GeneratePath && Parse(r).value.actionGroup == actionGroup
      && StatusOf(r).value in {200, 400, 500}
      && (StatusOf(r) == Some(400) ==> ErrorText(r) == Some("Missing parameter: " + PromptRequired))
      && (StatusOf(r) == Some(200) ==>
            GenerateCallsModel(properties, schema)
            && exists query :: Parse(r).value.body == [("query", JStr(query))] && !Blocked(query))
  {
    var r := GenerateResponse(properties, actionGroup, schema, model);
    match PropertyValue(properties, "prompt")
    case Raised(e) =>
    case Returned(None) =>
    case Returned(Some(prompt)) =>
      if !Truthy(prompt) {
        GenerateEmptyPrompt(properties, actionGroup, schema, model, prompt);
      } else {
        match Translation(prompt, schema, model)
        case Raised(e) =>
        case Returned(query) =>
          if QueryVerdict(JStr(query)) == Returned(true) {
            assert Parse(r).value.body == [("query", JStr(query))];
          }
      }
  }

  /** A missing, null or empty query gives the 400 missing-parameter envelope and reaches no database. */
  lemma ExecuteMissingQuery(properties: Json, actionGroup: Json, config: Config, execute: Executor)
    requires PropertyValue(properties, "query").Returned?
    requires var found := PropertyValue(properties, "query").value; found.None? || !Truthy(found.value)
    ensures StatusOf(ExecuteResponse(properties, actionGroup, config, execute)) == Some(400)
    ensures ErrorText(ExecuteResponse(properties, actionGroup, config, execute))
            == Some("Missing parameter: " + QueryRequired)
    ensures DatabaseRequest(properties, config) == None
  {
    assert ExecuteResponse(properties, actionGroup, config, execute)
           == Error(MissingParameter, actionGroup, ExecutePath, JStr(QueryRequired));
    ErrorWithText(MissingParameter, actionGroup, ExecutePath, QueryRequired);
    MessagePrefixes();
  }

  /**
   * A query containing a blocked operation ends as a 500 `Server error`
   * naming the first one, because `validate_query` raises rather than
   * returning `False`; the database is never called.
   */
  lemma ExecuteBlockedQuery(properties: Json, actionGroup: Json, config: Config, execute: Executor,
                            sql: string, k: nat)
    requires PropertyValue(properties, "query") == Returned(Some(JStr(sql))) && sql != ""
    requires k < |BlockedOperations| && Contains(Lower(sql), BlockedOperations[k])
    requires forall j :: 0 <= j < k ==> !Contains(Lower(sql), BlockedOperations[j])
    ensures StatusOf(ExecuteResponse(properties, actionGroup, config, execute)) == Some(500)
    ensures ErrorText(ExecuteResponse(properties, actionGroup, config, execute))
            == Some("Server error: " + (UnauthorizedPrefix + BlockedOperations[k]))
    ensures DatabaseRequest(properties, config) == None
  {
    var text := UnauthorizedPrefix + BlockedOperations[k];
    QueryNamesFirstKeyword(sql, k);
    assert ExecuteResponse(properties, actionGroup, config, execute) == Error(ServerError, actionGroup, ExecutePath, JStr(text));
    ErrorWithText(ServerError, actionGroup, ExecutePath, text);
    MessagePrefixes();
  }

  /** Whenever `validate_query` raises on a string query, its message ends up after "Server error: " in a 500. */
  lemma ExecuteRefusedQuery(properties: Json, actionGroup: Json, config: Config, execute: Executor, sql: string, message: string)
    requires PropertyValue(properties, "query") == Returned(Some(JStr(sql))) && sql != ""
    requires QueryVerdict(JStr(sql)) == Raised(ValueError(message)) && message != ""
    ensures StatusOf(ExecuteResponse(properties, actionGroup, config, execute)) == Some(500)
    ensures ErrorText(ExecuteResponse(properties, actionGroup, config, execute)) == Some("Server error: " + message)
    ensures DatabaseRequest(properties, config) == None
  {
    assert ExecuteResponse(properties, actionGroup, config, execute) == Error(ServerError, actionGroup, ExecutePath, JStr(message));
    ErrorWithText(ServerError, actionGroup, ExecutePath, message);
    MessagePrefixes();
  }

  /** A truthy query that is not a string has no `lower`, which ends as a 500. */
  lemma ExecuteNonStringQuery(properties: Json, actionGroup: Json, config: Config, execute: Executor, query: Json)
    requires PropertyValue(properties, "query") == Returned(Some(query)) && Truthy(query) && !query.JStr?
    ensures StatusOf(ExecuteResponse(properties, actionGroup, config, execute)) == Some(500)
    ensures ErrorText(ExecuteResponse(properties, actionGroup, config, execute))
            == Some("Server error: " + ExcText(AttributeError(TypeName(query), "lower")))
    ensures DatabaseRequest(properties, config) == None
  {
    var text := ExcText(AttributeError(TypeName(query), "lower"));
    assert ExecuteResponse(properties, actionGroup, config, execute) == Error(ServerError, actionGroup, ExecutePath, JStr(text));
    ErrorWithText(ServerError, actionGroup, ExecutePath, text);
    MessagePrefixes();
  }

  /** A clean query is sent once, as plain SQL with no parameters and native records; a client exception becomes `Database error`. */
  lemma ExecuteCleanQuery(properties: Json, actionGroup: Json, config: Config, execute: Executor, sql: string)
    requires PropertyValue(properties, "query") == Returned(Some(JStr(sql))) && sql != "" && !Blocked(sql)
    ensures DatabaseRequest(properties, config) == Some(RequestFor(config, JStr(sql), [], false))
    ensures match execute(RequestFor(config, JStr(sql), [], false))
      case Returned(results) =>
        Parse(ExecuteResponse(properties, actionGroup, config, execute))
        == Some(ResponseData(actionGroup, ExecutePath, 200, [("results", results)], "POST"))
      case Raised(e) =>
        && StatusOf(ExecuteResponse(properties, actionGroup, config, execute)) == Some(500)
        && ErrorText(ExecuteResponse(properties, actionGroup, config, execute))
           == Some(if ExcText(e) == "" then "Database error" else "Database error: " + ExcText(e))
  {
    assert QueryVerdict(JStr(sql)) == Returned(true);
    match execute(RequestFor(config, JStr(sql), [], false))
    case Returned(results) =>
    case Raised(e) =>
      assert ExecuteResponse(properties, actionGroup, config, execute) == Error(DatabaseError, actionGroup, ExecutePath, JStr(ExcText(e)));
      ErrorTextOf(DatabaseError, actionGroup, ExecutePath, JStr(ExcText(e)));
      MessagePrefixes();
  }

  /**
   * The safety property of the execute path: the only SQL that reaches the
   * database is a non-empty string whose lower-cased form contains no
   * blocked operation, sent without parameters or JSON formatting.
   */
  lemma ExecuteSendsOnlyScreenedSql(properties: Json, config: Config)
    requires DatabaseRequest(properties, config).Some?
    ensures var request := DatabaseRequest(properties, config).value;
      exists sql :: sql != "" && !Blocked(sql) && Lookup(request, "sql") == Some(JStr(sql))
                    && Lookup(request, "parameters") == None && Lookup(request, "formatRecordsAs") == None
                    && Lookup(request, "secretArn") == Some(JStr(config.readonlySecretArn))
  {
    var query := PropertyValue(properties, "query").value.value;
    RequestForLookups(config, query, [], false);
    assert query.JStr? && query.s != "" && !Blocked(query.s);
  }

  /**
   * `handle_execute` answers 200, 400 or 500 and never `Invalid query`: a
   * 400 is always the missing query, and a 200 means the database was called
   * and its response is the body's `results`.
   */
  lemma ExecuteOutcomes(properties: Json, actionGroup: Json, config: Config, execute: Executor)
    ensures var r := ExecuteResponse(properties, actionGroup, config, execute);
      && Parse(r).Some?
      && Parse(r).value.apiPath == ExecutePath && Parse(r).value.actionGroup == actionGroup
      && StatusOf(r).value in {200, 400, 500}
      && (StatusOf(r) == Some(400) ==> ErrorText(r) == Some("Missing parameter: " + QueryRequired))
      && (StatusOf(r) == Some(200) ==>
            DatabaseRequest(properties, config).Some?
            && execute(DatabaseRequest(properties, config).value).Returned?
            && Parse(r).value.body == [("results", execute(DatabaseRequest(properties, config).value).value)])
  {
    match PropertyValue(properties, "query")
    case Raised(e) =>
    case Returned(found) =>
      var query := if found.Some? then found.value else JNull;
      if !Truthy(query) {
        ExecuteMissingQuery(properties, actionGroup, config, execute);
      }
  }
}
