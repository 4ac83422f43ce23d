# Text-to-SQL action group: a Dafny model

This project models the request handler of a Bedrock agent action group.
The agent turns a natural-language question into SQL and runs that SQL on
an Aurora PostgreSQL database. The agent calls the handler with an event
naming an API path (`/generate` or `/execute`) and a list of named
properties. The handler:

- screens the question with a blocklist (`validate_input`);
- asks a language model for SQL (`generate_query`);
- screens the SQL with a second blocklist (`validate_query`);
- runs it through the RDS Data API (`execute_query`);
- wraps every outcome, good or bad, in the response envelope the agent
  expects (`BedrockResponseBuilder`, `ErrorType`).

The model works on decoded JSON values (`Runtime.Json`). Events,
properties and results can therefore be any shape the agent sends. Python's
behaviour on the wrong shapes is modelled exactly:

- `.get` on a non-dict raises `AttributeError`;
- iterating a string gives its characters;
- `not x` follows truthiness;
- an f-string shows a dict by its `repr`;
- exceptions carry CPython 3.12's texts.

The two outside calls are parameters:

- the language model is `Translator.Model`, from (schema text, validated
  question) to a reply text or an exception;
- the Data API client is `DataApi.Executor`, from the request to a response
  or an exception.

The cached schema is an `Option<string>`. The database settings read from
the environment are a `DataApi.Config`.

Modules, one file each:

- `Text`: lower-casing, substring search, `repr` of strings, decimal text.
- `Runtime`: JSON values, dict lookup, `.get`, exceptions, `repr`/`str`.
- `Guard`: both blocklists.
- `Envelope`: the error taxonomy and the envelope builders.
- `DataApi`: request assembly.
- `Translator`: `generate_query`.
- `Handlers`: the two handlers.
- `Router`: the entry point.
- `Scenarios`: worked examples on concrete SQL.

Each operation that loops or updates variables is a method proved equal to
a specification function:

- `ValidateInput`/`InputVerdict`;
- `ValidateQuery`/`QueryVerdict`;
- `FindProperty`/`PropertyValue`;
- `HandleGenerate`/`GenerateResponse`;
- `HandleExecute`/`ExecuteResponse`;
- `Handle`/`HandlerOutcome`.

The properties are proved as lemmas about those functions. Envelopes are
specified through `Envelope.Parse`, which reads an envelope back into its
`ResponseData`.

Where the code's own error kinds and branches (the 404 `UNKNOWN_PATH`
kind, the `INVALID_QUERY` branches, the missing-parameter branch) suggest
one behaviour and the code does another, the model follows what the code
does:

- A query holding a blocked operation is answered with 500 `Server error:
  Unauthorized SQL operation detected: <kw>`, not 400 `Invalid query`.
  `validate_query` raises instead of returning `False`, so the handlers'
  `Invalid query` branches are unreachable.
- An unknown API path is answered with 500 `Server error`, not 404
  `Unknown path`. The detail is the dict `{'error': 'Unknown API path:
  …'}` shown by its `repr`.
- `/generate` with no `prompt` property at all is answered with 500
  `Server error: cannot access local variable 'prompt' where it is not
  associated with a value`, not 400.
- The caller does not always receive an envelope: see Findings.

## Model

| member | source | states |
|---|---|---|
| Envelope.ErrorType.StatusCode | lambda/action_group/index.py:19-30 | 400 exactly for missing parameter and invalid query, 404 exactly for unknown path, 500 exactly for database and server errors |
| Envelope.MessageNamesKind | lambda/action_group/index.py:22-26 | no two error kinds share a message |
| Envelope.BuildResponse | lambda/action_group/index.py:47-58 | the envelope built from a `ResponseData` reads back as exactly that data |
| Envelope.ParsedFields | lambda/action_group/index.py:48-58 | an envelope that reads back has message version "1.0" and a `response` dict holding actionGroup, apiPath, httpMethod, httpStatusCode and the body under `responseBody["application/json"]` |
| Envelope.Success | lambda/action_group/index.py:60-69 | status 200, method POST, the given body, the caller's action group and path echoed |
| Envelope.Error | lambda/action_group/index.py:71-90 | the kind's status code, method POST, the caller's action group and path echoed, and a body holding only `error` |
| Envelope.ErrorTextOf | lambda/action_group/index.py:80-82 | the `error` text is "<message>: <str(detail)>" for a truthy detail and the bare message otherwise |
| Envelope.ErrorWithText | lambda/action_group/index.py:83-90 | for a non-empty string detail the text is "<message>: <detail>" and the status the kind's code |
| Envelope.BuiltEnvelopesWellFormed | lambda/action_group/index.py:47-90 | every envelope `success` and `error` build is well formed with method POST and a status in {200, 400, 404, 500} |
| Guard.FirstHit | lambda/action_group/index.py:196-198 | the index found is the first pattern in list order that occurs; none is found exactly when no pattern occurs |
| Guard.InputVerdict | lambda/action_group/index.py:154-177 | the question is returned unchanged exactly when it is a non-empty string with no lower-cased suspicious pattern in its lower-cased form; otherwise the matching `ValueError` |
| Guard.ValidateInput | lambda/action_group/index.py:154-177 | the loop's early raise gives what `InputVerdict` specifies |
| Guard.InputRejectsSubstring | lambda/action_group/index.py:172-175 | a suspicious pattern occurring anywhere, in any case, gets the question refused as malicious |
| Guard.QueryVerdict | lambda/action_group/index.py:180-201 | never returns False; returns True exactly for a string with no blocked operation in its lower-cased form; a non-string has no `lower` |
| Guard.ValidateQuery | lambda/action_group/index.py:180-201 | the loop's early raise gives what `QueryVerdict` specifies |
| Guard.QueryNamesFirstKeyword | lambda/action_group/index.py:196-198 | the error names the first blocked operation in list order that the SQL contains |
| Guard.QueryRejectsSubstring | lambda/action_group/index.py:182-198 | a blocked operation at any position, token boundary or not, gets the SQL refused |
| Guard.QueryAcceptsClean | lambda/action_group/index.py:196-201 | SQL with no blocked operation at any position is accepted |
| Scenarios.DropTableRejected | lambda/action_group/index.py:180-198 | `DROP TABLE students` is refused naming `drop` |
| Scenarios.DroppedColumnRejected | lambda/action_group/index.py:185-198 | a column named `dropped_at` makes the query raise `ValueError("Unauthorized SQL operation detected: drop")`: the blocklist is matched as a substring, not as a token |
| DataApi.BaseRequestLookups | lambda/action_group/index.py:267-272 | the base request holds the cluster ARN, the read-only secret, the database name and the SQL, and no optional key |
| DataApi.RequestForLookups | lambda/action_group/index.py:266-279 | the four fixed keys always hold their values; `parameters` only for a non-empty list, `formatRecordsAs` = "JSON" only when asked |
| DataApi.RequestForKeys | lambda/action_group/index.py:266-279 | the request's key set is the four fixed keys plus exactly the optional ones that apply |
| DataApi.ExecuteQuery | lambda/action_group/index.py:264-287 | the request built in place is `RequestFor`, and the client's answer or exception is passed on unchanged |
| Translator.GenerateQuery | lambda/action_group/index.py:204-261 | schema check, then `validate_input`, then one model call, which happens exactly when both pass |
| Translator.ModelSeesScreenedQuestion | lambda/action_group/index.py:204-256 | the model only sees a cached non-empty schema and a non-empty, non-suspicious string question, passed on unchanged |
| Translator.NoSchemaNoTranslation | lambda/action_group/index.py:205-206 | with no schema, "Schema not initialized" is raised before the question is screened |
| Translator.RejectedQuestionNoTranslation | lambda/action_group/index.py:208-209 | a question `validate_input` refuses raises its error and never reaches the model |
| Runtime.DictGet | lambda/action_group/index.py:382-385 | `.get` raises exactly when the value is not a dict |
| Runtime.ReprSingleEntry | lambda/action_group/index.py:81 | a one-entry dict detail (such as the one built at line 399) is shown by the f-string as `{'key': repr(value)}` |
| Handlers.FindProperty | lambda/action_group/index.py:293-295 | the property loop gives what `PropertyValue` specifies, for lists, strings, dicts and non-iterables |
| Handlers.ScanLastWins | lambda/action_group/index.py:330-332 | the loop never breaks, so the last property with the name gives the value |
| Handlers.ScanOfDicts | lambda/action_group/index.py:330-332 | over a list of dicts the scan returns, and finds a value exactly when some property has the name |
| Handlers.ScanRaisesAtFirstNonDict | lambda/action_group/index.py:293-295 | the scan raises `AttributeError` for the first item that is not a dict |
| Handlers.HandleGenerate | lambda/action_group/index.py:290-324 | the handler gives what `GenerateResponse` specifies and calls the model exactly when the prompt is truthy and passes screening |
| Handlers.GenerateEmptyPrompt | lambda/action_group/index.py:297-303 | a present but falsy prompt gives 400 "Missing parameter: Prompt parameter is required" and no model call |
| Handlers.GenerateNoPrompt | lambda/action_group/index.py:293-297 | no prompt property gives 500 with the unbound-local text and no model call |
| Handlers.GenerateBlockedQuery | lambda/action_group/index.py:305-324 | generated SQL holding a blocked operation gives 500 "Server error: Unauthorized SQL operation detected: <first kw>" |
| Handlers.GenerateCleanQuery | lambda/action_group/index.py:305-318 | clean generated SQL is returned with status 200 as the model gave it |
| Handlers.GenerateOutcomes | lambda/action_group/index.py:290-324 | status is 200, 400 or 500, never `Invalid query`; a 400 is the missing prompt; a 200 follows a model call and carries SQL free of blocked operations |
| Handlers.HandleExecute | lambda/action_group/index.py:327-368 | the handler gives what `ExecuteResponse` specifies and sends exactly the request `DatabaseRequest` names |
| Handlers.ExecuteMissingQuery | lambda/action_group/index.py:334-340 | a missing or falsy query gives 400 "Missing parameter: Query parameter is required" and no database call |
| Handlers.ExecuteBlockedQuery | lambda/action_group/index.py:342-368 | a blocked query gives 500 "Server error: Unauthorized SQL operation detected: <first kw>" and no database call |
| Handlers.ExecuteRefusedQuery | lambda/action_group/index.py:342-368 | any `ValueError` from `validate_query` ends as a 500 carrying its message, with no database call |
| Handlers.ExecuteNonStringQuery | lambda/action_group/index.py:342-368 | a truthy non-string query gives 500 "'<type>' object has no attribute 'lower'" and no database call |
| Handlers.ExecuteCleanQuery | lambda/action_group/index.py:350-361 | a clean query is sent once as plain SQL; the response is the 200 body's `results`; a client exception gives 500 `Database error` |
| Handlers.ExecuteSendsOnlyScreenedSql | lambda/action_group/index.py:327-361 | the only SQL that reaches the database is a non-empty string free of blocked operations, sent with the read-only secret and no parameters |
| Handlers.ExecuteOutcomes | lambda/action_group/index.py:327-368 | status is 200, 400 or 500, never `Invalid query`; a 400 is the missing query; a 200 means the database answered and its answer is the body |
| Scenarios.ExecuteDropTable | lambda/action_group/index.py:327-368 | `DROP TABLE students` gives 500 naming `drop` and never reaches the database |
| Router.Decode | lambda/action_group/index.py:382-387 | the `.get` chain raises (only `AttributeError` for `get`) exactly when the event, or the `requestBody`, `content` or `application/json` level it reaches, is present but not a dict; otherwise the properties are the nested lookup with `{}` at each level and `[]` at the end, and the path and action group default to "" |
| Router.Handle | lambda/action_group/index.py:379-406 | the entry point gives what `HandlerOutcome` specifies; the model is called exactly when a decoded `/generate` event's handler reaches it, and the database request issued is exactly `DatabaseRequest` of the properties on a decoded `/execute` event and none otherwise |
| Router.MalformedEventEscapes | lambda/action_group/index.py:379-406 | the handler raises exactly when the `.get` chain raises, and then it raises `UnboundLocalError` for `action_group` |
| Router.NullRequestBodyEscapes | lambda/action_group/index.py:382-406 | an event whose `requestBody` is null makes the handler raise instead of answering |
| Router.UnknownPathAnswer | lambda/action_group/index.py:393-400 | any other path gives 500, never 404, echoing the path and action group, with the text "Server error: {'error': <repr of the message>}" |
| Router.UnknownPathDetailShown | lambda/action_group/index.py:399 | how the unknown-path detail dict reads once shown |
| Router.DispatchOutcomes | lambda/action_group/index.py:389-400 | every routed event gets a well-formed envelope with status 200, 400 or 500 and its action group echoed; a 200 follows a model or database call on the matching path |
| Router.HandleGuarded | lambda/action_group/index.py:379-406 | the corrected entry point gives what `GuardedResponse` specifies |
| Router.GuardedAlwaysAnswers | lambda/action_group/index.py:402-406 | the corrected handler always answers with a well-formed 200, 400 or 500 envelope; a malformed event gets 500 with the `AttributeError` text |
| Router.GuardedAgreesWhereAnswered | lambda/action_group/index.py:379-400 | wherever the handler as written answers, the corrected one gives the same envelope |

## Left out

- The boto3 clients and module start-up (lambda/action_group/index.py:12-16, 371-376) are left out. The environment settings are a `DataApi.Config` and the cached schema an `Option<string>`. A failing start-up never reaches the handler.
- `get_database_schema` and its catalog query are left out. The schema is a parameter.
- `invoke_llm`, `generate_message`, the prompt template and the `print` calls are left out. `Translator.Model` stands for building the prompt and calling the model, as one function of the schema text and the validated question.
- Translator.GenerateQuery: the prompt's `.format(contexts, validated_question)` re-reads any braces in the schema text and the question as format fields. It can then raise or rewrite the prompt. This step is folded into `Model`, so no separate exception text is stated for it.
- `execute_statement` is a parameter (`DataApi.Executor`), so the response's contents are not modelled.
- DataApi.ExecuteQuery takes a sequence of parameters. Python's `None` default and an empty list behave the same in the source, and both are the empty sequence here.
- Floating-point JSON numbers are not modelled. The event's values are `null`, booleans, integers, strings, lists and dicts.
- Text.Lower lower-cases ASCII letters only. The patterns are ASCII. The only non-ASCII characters whose lower case holds an ASCII letter are U+0130 and U+212A, and neither can complete a pattern.
- Runtime.Repr treats every character from space upward, except DEL, as printable. CPython escapes some further non-ASCII characters.
- Runtime.Repr shows a dict with a repeated key once per pair. Decoded JSON keeps only the last pair.
- The JSON encoding of the envelope on its way back to the agent is not modelled. `Envelope.Parse` reads the envelope as a value.

## Findings

| source | as written | input that shows it | evidently intended | confidence | as-written member | corrected member |
|---|---|---|---|---|---|---|
| lambda/action_group/index.py:402-406 | The `except` clause passes `action_group` to the error envelope. `action_group` is assigned at line 387, after the only statements that can raise (the `.get` chain, lines 382-385). So reaching the `except` raises `UnboundLocalError` out of the handler, and no envelope is returned. | the event `{"requestBody": null}` | answer a malformed event with a 500 `Server error` envelope carrying the exception text | high; not executed | Router.NullRequestBodyEscapes | Router.GuardedAlwaysAnswers |
