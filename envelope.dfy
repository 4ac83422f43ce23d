/**
 * The error taxonomy and the response envelope every outcome is wrapped in
 * (`ErrorType`, `ResponseData`, `BedrockResponseBuilder`). The envelope is a
 * JSON dict; `Parse` reads one back, and each builder is specified by what
 * `Parse` finds in what it built.
 */
module Envelope {
  import opened Runtime

  /** `ErrorType`: each kind pairs a message with an HTTP status code. */
  datatype ErrorType = MissingParameter | InvalidQuery | DatabaseError | UnknownPath | ServerError
  {
    function Message(): string
    {
      match this
      case MissingParameter => "Missing parameter"
      case InvalidQuery => "Invalid query"
      case DatabaseError => "Database error"
      case UnknownPath => "Unknown path"
      case ServerError => "Server error"
    }

    /** 400 for caller mistakes, 404 for an unknown path, 500 for failures on this side. */
    function StatusCode(): (code: int)
      ensures code == 400 <==> this == MissingParameter || this == InvalidQuery
      ensures code == 404 <==> this == UnknownPath
      ensures code == 500 <==> this == DatabaseError || this == ServerError
    {
      match this
      case MissingParameter => 400
      case InvalidQuery => 400
      case DatabaseError => 500
      case UnknownPath => 404
      case ServerError => 500
    }
  }

  /** No two error kinds share a message, so the message names the kind. */
  lemma MessageNamesKind(a: ErrorType, b: ErrorType)
    requires a.Message() == b.Message()
    ensures a == b
  {
  }

  /** `ResponseData`; `httpMethod` defaults to "POST" and no caller overrides it. */
  datatype ResponseData = ResponseData(
    actionGroup: Json,
    apiPath: Json,
    statusCode: int,
    body: seq<(string, Json)>,
    httpMethod: string)

  /** Reads an envelope back: `None` unless it has the shape `BuildResponse` gives. */
  function Parse(v: Json): Option<ResponseData>
  {
    if !v.JDict? || Lookup(v.fields, "messageVersion") != Some(JStr("1.0")) then None
    else match Lookup(v.fields, "response")
      case Some(JDict(resp)) => ParseResponse(resp)
      case _ => None
  }

  /** Reads the `response` part of an envelope. */
  function ParseResponse(resp: seq<(string, Json)>): Option<ResponseData>
  {
    var group, path, verb := Lookup(resp, "actionGroup"), Lookup(resp, "apiPath"), Lookup(resp, "httpMethod");
    var code, responseBody := Lookup(resp, "httpStatusCode"), Lookup(resp, "responseBody");
    if group.Some? && path.Some? && verb.Some? && verb.value.JStr? && code.Some? && code.value.JInt?
       && responseBody.Some? && responseBody.value.JDict?
    then
      var body := Lookup(responseBody.value.fields, "application/json");
      if body.Some? && body.value.JDict?
      then Some(ResponseData(group.value, path.value, code.value.i, body.value.fields, verb.value.s))
      else None
    else None
  }

  /**
   * What `Parse` accepting an envelope means: message version "1.0", and a
   * `response` dict whose fields carry the data, with the body under
   * "application/json".
   */
  lemma ParsedFields(v: Json, d: ResponseData)
    requires Parse(v) == Some(d)
    ensures v.JDict? && Lookup(v.fields, "messageVersion") == Some(JStr("1.0"))
    ensures exists resp :: (
              && Lookup(v.fields, "response") == Some(JDict(resp))
              && Lookup(resp, "actionGroup") == Some(d.actionGroup)
              && Lookup(resp, "apiPath") == Some(d.apiPath)
              && Lookup(resp, "httpMethod") == Some(JStr(d.httpMethod))
              && Lookup(resp, "httpStatusCode") == Some(JInt(d.statusCode))
              && exists responseBody :: (
                   && Lookup(resp, "responseBody") == Some(JDict(responseBody))
                   && Lookup(responseBody, "application/json") == Some(JDict(d.body))))
  {
    var resp := Lookup(v.fields, "response").value.fields;
    var responseBody := Lookup(resp, "responseBody").value.fields;
    assert Lookup(responseBody, "application/json") == Some(JDict(d.body));
  }

  /** The status code of an envelope. */
  function StatusOf(v: Json): Option<int>
  {
    match Parse(v)
    case Some(d) => Some(d.statusCode)
    case None => None
  }

  /** The `error` text in an envelope's body, if it has one. */
  function ErrorText(v: Json): Option<string>
  {
    match Parse(v)
    case Some(d) =>
      (match Lookup(d.body, "error")
       case Some(JStr(m)) => Some(m)
       case _ => None)
    case None => None
  }

  /** `build_response`: message version "1.0", the data's fields, the body under "application/json". */
  function BuildResponse(d: ResponseData): (r: Json)
    ensures Parse(r) == Some(d)
  {
    var r := JDict([("messageVersion", JStr("1.0")), ("response", JDict(ResponseFields(d)))]);
    ParseBuilt(d);
    r
  }

  /** The `response` part of the envelope for `d`. */
  function ResponseFields(d: ResponseData): seq<(string, Json)>
  {
    [("actionGroup", d.actionGroup), ("apiPath", d.apiPath), ("httpMethod", JStr(d.httpMethod)),
     ("httpStatusCode", JInt(d.statusCode)), ("responseBody", JDict([("application/json", JDict(d.body))]))]
  }

  lemma ParseBuilt(d: ResponseData)
    ensures Parse(JDict([("messageVersion", JStr("1.0")), ("response", JDict(ResponseFields(d)))])) == Some(d)
  {
    var resp := ResponseFields(d);
    LookupAt([("application/json", JDict(d.body))], 0);
    LookupAt(resp, 0);
    LookupAt(resp, 1);
    LookupAt(resp, 2);
    LookupAt(resp, 3);
    LookupAt(resp, 4);
    assert ParseResponse(resp) == Some(d);
    var outer := [("messageVersion", JStr("1.0")), ("response", JDict(resp))];
    LookupAt(outer, 0);
    LookupAt(outer, 1);
  }

  /** `success`: status 200, the given body, the caller's action group and path echoed. */
  function Success(actionGroup: Json, apiPath: Json, data: seq<(string, Json)>): (r: Json)
    ensures Parse(r) == Some(ResponseData(actionGroup, apiPath, 200, data, "POST"))
  {
    BuildResponse(ResponseData(actionGroup, apiPath, 200, data, "POST"))
  }

  /** The text `error` puts in the body: the kind's message, then `: detail` when the detail is truthy. */
  function ErrorMessage(kind: ErrorType, detail: Json): string
  {
    if Truthy(detail) then kind.Message() + ": " + Show(detail) else kind.Message()
  }

  /** `error`: the kind's status code and a body holding only `error`. */
  function Error(kind: ErrorType, actionGroup: Json, apiPath: Json, detail: Json): (r: Json)
    ensures Parse(r) == Some(ResponseData(actionGroup, apiPath, kind.StatusCode(), [("error", JStr(ErrorMessage(kind, detail)))], "POST"))
    ensures StatusOf(r) == Some(kind.StatusCode())
  {
    BuildResponse(ResponseData(actionGroup, apiPath, kind.StatusCode(), [("error", JStr(ErrorMessage(kind, detail)))], "POST"))
  }

  /** The `error` text reads "<message>: <detail>" for a truthy detail and the bare message otherwise. */
  lemma ErrorTextOf(kind: ErrorType, actionGroup: Json, apiPath: Json, detail: Json)
    ensures Truthy(detail) ==> ErrorText(Error(kind, actionGroup, apiPath, detail)) == Some(kind.Message() + ": " + Show(detail))
    ensures !Truthy(detail) ==> ErrorText(Error(kind, actionGroup, apiPath, detail)) == Some(kind.Message())
  {
    LookupAt([("error", JStr(ErrorMessage(kind, detail)))], 0);
  }

  /** An error envelope whose detail is a non-empty string: the kind's status and "<message>: <text>". */
  lemma ErrorWithText(kind: ErrorType, actionGroup: Json, apiPath: Json, text: string)
    requires text != ""
    ensures StatusOf(Error(kind, actionGroup, apiPath, JStr(text))) == Some(kind.StatusCode())
    ensures ErrorText(Error(kind, actionGroup, apiPath, JStr(text))) == Some(kind.Message() + ": " + text)
  {
    ErrorTextOf(kind, actionGroup, apiPath, JStr(text));
    assert Show(JStr(text)) == text;
  }

  /** The message of each kind followed by the separator `error` puts before a detail. */
  lemma MessagePrefixes()
    ensures MissingParameter.Message() + ": " == "Missing parameter: "
    ensures InvalidQuery.Message() + ": " == "Invalid query: "
    ensures DatabaseError.Message() + ": " == "Database error: "
    ensures UnknownPath.Message() + ": " == "Unknown path: "
    ensures ServerError.Message() + ": " == "Server error: "
  {
  }

  /** An envelope `Parse` accepts, with a status code from the taxonomy. */
  ghost predicate WellFormed(v: Json)
  {
    Parse(v).Some? && Parse(v).value.httpMethod == "POST" && Parse(v).value.statusCode in {200, 400, 404, 500}
  }

  /** Every envelope the builders make is well formed. */
  lemma BuiltEnvelopesWellFormed(kind: ErrorType, actionGroup: Json, apiPath: Json, detail: Json, data: seq<(string, Json)>)
    ensures WellFormed(Success(actionGroup, apiPath, data))
    ensures WellFormed(Error(kind, actionGroup, apiPath, detail))
  {
  }
}
