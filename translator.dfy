/**
 * `generate_query`: check that a schema is cached, screen the question with
 * `validate_input`, then ask the language model for SQL. The model call is a
 * parameter: a function from the schema text and the validated question (the
 * prompt is built from those two alone) to the text of the reply's first
 * content block, or the exception the client raised.
 */
module Translator {
  import opened Runtime
  import opened Guard

  /** The schema text cached at start-up; `None` when nothing was cached. */
  type Schema = Option<string>

  /** `invoke_llm` on the prompt built from (schema text, question), read back as `content[0].text`. */
  type Model = (string, string) -> Outcome<string>

  const SchemaMissingMessage := "Schema not initialized"

  /** `not schema` is false: a schema is cached and is not the empty string. */
  predicate SchemaReady(schema: Schema)
  {
    schema.Some? && schema.value != ""
  }

  /** What `generate_query(question)` returns or raises. */
  function Translation(question: Json, schema: Schema, model: Model): Outcome<string>
  {
    if !SchemaReady(schema) then Raised(ValueError(SchemaMissingMessage))
    else match InputVerdict(question)
      case Raised(e) => Raised(e)
      case Returned(validated) => model(schema.value, validated.s)
  }

  /** Whether `generate_query(question)` reaches the model call. */
  ghost predicate ModelReached(question: Json, schema: Schema)
  {
    SchemaReady(schema) && InputVerdict(question).Returned?
  }

  /**
   * `generate_query` (index.py:204-261): the schema check first, then
   * `validate_input`, then one model call. `asked` records whether the model
   * was called.
   */
  method GenerateQuery(question: Json, schema: Schema, model: Model)
    returns (r: Outcome<string>, ghost asked: bool)
    ensures r == Translation(question, schema, model)
    ensures asked <==> ModelReached(question, schema)
  {
    asked := false;
    if !SchemaReady(schema) {
      return Raised(ValueError(SchemaMissingMessage)), asked;
    }
    var validated := ValidateInput(question);
    if validated.Raised? {
      return Raised(validated.exc), asked;
    }
    asked := true;
    r := model(schema.value, validated.value.s);
  }

  /**
   * The model only ever sees a cached, non-empty schema and a non-empty
   * string question free of every suspicious pattern, passed on unchanged.
   */
  lemma ModelSeesScreenedQuestion(question: Json, schema: Schema, model: Model)
    requires ModelReached(question, schema)
    ensures question.JStr? && question.s != "" && !Suspicious(question.s)
    ensures schema.Some? && schema.value != ""
    ensures Translation(question, schema, model) == model(schema.value, question.s)
  {
  }

  /** With no schema cached, translation fails before the question is even screened. */
  lemma NoSchemaNoTranslation(question: Json, schema: Schema, model: Model)
    requires !SchemaReady(schema)
    ensures Translation(question, schema, model) == Raised(ValueError(SchemaMissingMessage))
    ensures !ModelReached(question, schema)
  {
  }

  /** A rejected question raises `validate_input`'s error and never reaches the model. */
  lemma RejectedQuestionNoTranslation(question: Json, schema: Schema, model: Model)
    requires SchemaReady(schema) && InputVerdict(question).Raised?
    ensures Translation(question, schema, model) == Raised(InputVerdict(question).exc)
    ensures !ModelReached(question, schema)
  {
  }
}
