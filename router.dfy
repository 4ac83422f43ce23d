/**
 * `handler`, the Lambda entry point: dig the properties out of the event,
 * read the API path and the action group, and route to `handle_generate` or
 * `handle_execute`. The event is decoded JSON; the schema, the model, the
 * database settings and the database client are parameters.
 */
module Router {
  import opened Text
  import opened Runtime
  import opened Envelope
  import opened DataApi
  import opened Translator
  import opened Handlers

  /** What the handler reads out of an event before routing. */
  datatype Route = Route(properties: Json, apiPath: Json, actionGroup: Json)

  /** The value under `key` in `d`; `default` when `d` is not a dict or lacks the key. */
  ghost function Field(d: Json, key: string, default: Json): Json
  {
    if d.JDict? && Lookup(d.fields, key).Some? then Lookup(d.fields, key).value else default
  }

  /**
   * The chain of `.get` calls at the top of `handler`: each level defaults to
   * an empty dict (the properties to an empty list, the path and the action
   * group to the empty string), and a level that is present but not a dict
   * raises `AttributeError`.
   */
  function Decode(event: Json): (r: Outcome<Route>)
    ensures r.Raised? ==> r.exc.AttributeError? && r.exc.attribute == "get"
    ensures r.Raised? <==>
      || !event.JDict?
      || !Field(event, "requestBody", JDict([])).JDict?
      || !Field(Field(event, "requestBody", JDict([])), "content", JDict([])).JDict?
      || !Field(Field(Field(event, "requestBody", JDict([])), "content", JDict([])), "application/json", JDict([])).JDict?
    ensures r.Returned? ==> (r.value.properties ==
      Field(Field(Field(Field(event, "requestBody", JDict([])), "content", JDict([])), "application/json", JDict([])), "properties", JList([])))
    ensures r.Returned? ==> r.value.apiPath == Field(event, "apiPath", JStr(""))
    ensures r.Returned? ==> r.value.actionGroup == Field(event, "actionGroup", JStr(""))
  {
    match DictGet(event, "requestBody", JDict([]))
    case Raised(e) => Raised(e)
    case Returned(requestBody) =>
      match DictGet(requestBody, "content", JDict([]))
      case Raised(e) => Raised(e)
      case Returned(content) =>
        match DictGet(content, "application/json", JDict([]))
        case Raised(e) => Raised(e)
        case Returned(jsonContent) =>
          match DictGet(jsonContent, "properties", JList([]))
          case Raised(e) => Raised(e)
          case Returned(properties) =>
            Returned(Route(properties, DictGet(event, "apiPath", JStr("")).value, DictGet(event, "actionGroup", JStr("")).value))
  }

  /** The detail of the unknown-path error: a dict holding the message, not a string. */
  function UnknownPathDetail(apiPath: Json): Json
  {
    JDict([("error", JStr("Unknown API path: " + Show(apiPath)))])
  }

  /** The envelope for a decoded event. */
  function Dispatch(route: Route, schema: Schema, model: Model, config: Config, execute: Executor): Json
  {
    if route.apiPath == GeneratePath then GenerateResponse(route.properties, route.actionGroup, schema, model)
    else if route.apiPath == ExecutePath then ExecuteResponse(route.properties, route.actionGroup, config, execute)
    else Error(ServerError, route.actionGroup, route.apiPath, UnknownPathDetail(route.apiPath))
  }

  /**
   * What `handler(event)` returns or raises, as written. An exception can
   * only come from the `.get` chain, before `action_group` is assigned, so
   * the `except` clause's own reference to `action_group` raises
   * `UnboundLocalError`, which leaves the handler.
   */
  function HandlerOutcome(event: Json, schema: Schema, model: Model, config: Config, execute: Executor): Outcome<Json>
  {
    match Decode(event)
    case Raised(_) => Raised(UnboundLocal("action_group"))
    case Returned(route) => Returned(Dispatch(route, schema, model, config, execute))
  }

  /**
   * `handler` (index.py:379-406), as written. `asked` records whether the
   * model was called and `issued` the request sent to the database.
   */
  method Handle(event: Json, schema: Schema, model: Model, config: Config, execute: Executor)
    returns (r: Outcome<Json>, ghost asked: bool, ghost issued: Option<Request>)
    ensures r == HandlerOutcome(event, schema, model, config, execute)
    ensures asked <==> Decode(event).Returned? && Decode(event).value.apiPath == GeneratePath
                       && GenerateCallsModel(Decode(event).value.properties, schema)
    ensures issued == (if Decode(event).Returned? && Decode(event).value.apiPath == ExecutePath
                       then DatabaseRequest(Decode(event).value.properties, config) else None)
  {
    asked, issued := false, None;
    var route := Decode(event);
    if route.Raised? {
      // the `except` clause reads `action_group`, which was never assigned
      return Raised(UnboundLocal("action_group")), asked, issued;
    }
    var properties, apiPath, actionGroup := route.value.properties, route.value.apiPath, route.value.actionGroup;
    var response: Json;
    if apiPath == GeneratePath {
      response, asked := HandleGenerate(properties, actionGroup, schema, model);
    } else if apiPath == ExecutePath {
      response, issued := HandleExecute(properties, actionGroup, config, execute);
    } else {
      response := Error(ServerError, actionGroup, apiPath, UnknownPathDetail(apiPath));
    }
    r := Returned(response);
  }

  /**
   * `handler` with `action_group` bound to "" before the `try`, so that the
   * `except` clause answers with the 500 envelope it was written to build.
   */
  function GuardedResponse(event: Json, schema: Schema, model: Model, config: Config, execute: Executor): Json
  {
    match Decode(event)
    case Raised(e) => Error(ServerError, JStr(""), ExecutePath, JStr(ExcText(e)))
    case Returned(route) => Dispatch(route, schema, model, config, execute)
  }

  /** The corrected entry point. */
  method HandleGuarded(event: Json, schema: Schema, model: Model, config: Config, execute: Executor)
    returns (r: Json)
    ensures r == GuardedResponse(event, schema, model, config, execute)
  {
    var actionGroup := JStr("");
    var route := Decode(event);
    if route.Raised? {
      return Error(ServerError, actionGroup, ExecutePath, JStr(ExcText(route.exc)));
    }
    var properties, apiPath := route.value.properties, route.value.apiPath;
    actionGroup := route.value.actionGroup;
    if apiPath == GeneratePath {
      ghost var asked;
      r, asked := HandleGenerate(properties, actionGroup, schema, model);
    } else if apiPath == ExecutePath {
      ghost var issued;
      r, issued := HandleExecute(properties, actionGroup, config, execute);
    } else {
      r := Error(ServerError, actionGroup, apiPath, UnknownPathDetail(apiPath));
    }
  }

  /**
   * An event the `.get` chain cannot walk makes the handler, as written,
   * raise `UnboundLocalError` instead of answering; every other event is
   * answered.
   */
  lemma MalformedEventEscapes(event: Json, schema: Schema, model: Model, config: Config, execute: Executor)
    ensures HandlerOutcome(event, schema, model, config, execute).Raised? <==> Decode(event).Raised?
    ensures Decode(event).Raised? ==>
      && HandlerOutcome(event, schema, model, config, execute) == Raised(UnboundLocal("action_group"))
      && Decode(event).exc.AttributeError?
  {
  }

  /** An event whose `requestBody` is `null` is such an event. */
  lemma NullRequestBodyEscapes(schema: Schema, model: Model, config: Config, execute: Executor)
    ensures HandlerOutcome(JDict([("requestBody", JNull)]), schema, model, config, execute)
            == Raised(UnboundLocal("action_group"))
    ensures Decode(JDict([("requestBody", JNull)])) == Raised(AttributeError("NoneType", "get"))
  {
    LookupAt([("requestBody", JNull)], 0);
  }

  /**
   * A path other than the two routes gets a 500 `Server error` envelope,
   * never the 404 of `Unknown path`, echoing the path; the detail is a dict,
   * so the text shows its `repr`.
   */
  lemma UnknownPathAnswer(route: Route, schema: Schema, model: Model, config: Config, execute: Executor)
    requires route.apiPath != GeneratePath && route.apiPath != ExecutePath
    ensures var r := Dispatch(route, schema, model, config, execute);
      && StatusOf(r) == Some(500)
      && Parse(r).value.apiPath == route.apiPath && Parse(r).value.actionGroup == route.actionGroup
      && ErrorText(r) == Some("Server error: " + ("{" + ("'error'" + ": " + ReprStr("Unknown API path: " + Show(route.apiPath))) + "}"))
  {
    var detail := UnknownPathDetail(route.apiPath);
    ErrorTextOf(ServerError, route.actionGroup, route.apiPath, detail);
    MessagePrefixes();
    UnknownPathDetailShown(route.apiPath);
  }

  /** How the unknown-path detail reads once formatted into the message. */
  lemma UnknownPathDetailShown(apiPath: Json)
    ensures Show(UnknownPathDetail(apiPath)) == "{" + ("'error'" + ": " + ReprStr("Unknown API path: " + Show(apiPath))) + "}"
  {
    ReprSingleEntry("error", JStr("Unknown API path: " + Show(apiPath)));
    ErrorKeyShown();
  }

  lemma ErrorKeyShown()
    ensures ReprStr("error") == "'error'"
  {
    ReprPlain("error");
    assert "'" + "error" + "'" == "'error'";
  }

  /**
   * Every routed event is answered 200, 400 or 500 with the caller's action
   * group echoed; the 200s are exactly the two handlers' successes.
   */
  lemma DispatchOutcomes(route: Route, schema: Schema, model: Model, config: Config, execute: Executor)
    ensures var r := Dispatch(route, schema, model, config, execute);
      && WellFormed(r)
      && StatusOf(r).value in {200, 400, 500}
      && Parse(r).value.actionGroup == route.actionGroup
      && (StatusOf(r) == Some(200) ==>
            (route.apiPath == GeneratePath && GenerateCallsModel(route.properties, schema))
            || (route.apiPath == ExecutePath && DatabaseRequest(route.properties, config).Some?))
  {
    if route.apiPath == GeneratePath {
      GenerateOutcomes(route.properties, route.actionGroup, schema, model);
    } else if route.apiPath == ExecutePath {
      ExecuteOutcomes(route.properties, route.actionGroup, config, execute);
    } else {
      UnknownPathAnswer(route, schema, model, config, execute);
    }
  }

  /**
   * The corrected handler always answers with a well-formed envelope whose
   * status is 200, 400 or 500; a malformed event gets a 500 carrying the
   * `AttributeError` text, an empty action group and the path "/execute".
   */
  lemma GuardedAlwaysAnswers(event: Json, schema: Schema, model: Model, config: Config, execute: Executor)
    ensures var r := GuardedResponse(event, schema, model, config, execute);
      && WellFormed(r)
      && StatusOf(r).value in {200, 400, 500}
    ensures Decode(event).Raised? ==>
      var r := GuardedResponse(event, schema, model, config, execute);
      && StatusOf(r) == Some(500)
      && Parse(r).value.actionGroup == JStr("") && Parse(r).value.apiPath == ExecutePath
      && ErrorText(r) == Some("Server error: " + ExcText(Decode(event).exc))
  {
    match Decode(event)
    case Raised(e) =>
      assert ExcText(e) != "";
      ErrorWithText(ServerError, JStr(""), ExecutePath, ExcText(e));
      MessagePrefixes();
    case Returned(route) =>
      DispatchOutcomes(route, schema, model, config, execute);
  }

  /** Wherever the handler as written answers, the corrected one gives the same answer. */
  lemma GuardedAgreesWhereAnswered(event: Json, schema: Schema, model: Model, config: Config, execute: Executor)
    requires HandlerOutcome(event, schema, model, config, execute).Returned?
    ensures GuardedResponse(event, schema, model, config, execute) == HandlerOutcome(event, schema, model, config, execute).value
  {
  }
}
