/**
 * The two blocklist checkpoints: `validate_input` screens the user's
 * question before any model call, `validate_query` screens SQL before it is
 * returned or executed. Both lower-case the text and test each listed pattern
 * as a substring; neither parses SQL.
 */
module Guard {
  import opened Text
  import opened Runtime

  /** Raw-injection markers and keywords refused in a question (index.py:160-170). */
  const SuspiciousPatterns: seq<string> :=
    ["--;", "/*", "*/", "@@", "UNION", "SELECT", "DROP", "DELETE", "UPDATE"]

  /** Operations refused in SQL, in the order they are tried (index.py:185-194). */
  const BlockedOperations: seq<string> :=
    ["drop", "truncate", "delete", "update", "alter", "create", "insert", "grant"]

  const InvalidInputMessage := "Invalid input: Question must be a non-empty string"
  const MaliciousInputMessage := "Potentially malicious input detected"
  const UnauthorizedPrefix := "Unauthorized SQL operation detected: "

  /** The index of the first pattern, in list order, that occurs in `hay`. */
  function FirstHit(hay: string, patterns: seq<string>): (r: Option<nat>)
    ensures r.Some? ==> r.value < |patterns| && Contains(hay, patterns[r.value])
    ensures r.Some? ==> forall j :: 0 <= j < r.value ==> !Contains(hay, patterns[j])
    ensures r.None? <==> forall j :: 0 <= j < |patterns| ==> !Contains(hay, patterns[j])
  {
    if patterns == [] then None
    else if Contains(hay, patterns[0]) then Some(0)
    else match FirstHit(hay, patterns[1..])
      case None => None
      case Some(k) => Some(k + 1)
  }

  /** A question is suspicious when its lower-cased form contains a lower-cased pattern. */
  ghost predicate Suspicious(question: string)
  {
    exists k :: 0 <= k < |SuspiciousPatterns| && Contains(Lower(question), Lower(SuspiciousPatterns[k]))
  }

  /** SQL is blocked when its lower-cased form contains a blocked operation. */
  ghost predicate Blocked(sql: string)
  {
    exists k :: 0 <= k < |BlockedOperations| && Contains(Lower(sql), BlockedOperations[k])
  }

  /** What `validate_input(question)` does: return the question unchanged, or raise `ValueError`. */
  function InputVerdict(question: Json): (r: Outcome<Json>)
    ensures r.Returned? <==> question.JStr? && question.s != "" && !Suspicious(question.s)
    ensures r.Returned? ==> r.value == question
    ensures !(question.JStr? && question.s != "") ==> r == Raised(ValueError(InvalidInputMessage))
    ensures question.JStr? && question.s != "" && Suspicious(question.s) ==> r == Raised(ValueError(MaliciousInputMessage))
  {
    if !Truthy(question) || !question.JStr? then Raised(ValueError(InvalidInputMessage))
    else
      var lowered := seq(|SuspiciousPatterns|, k requires 0 <= k < |SuspiciousPatterns| => Lower(SuspiciousPatterns[k]));
      assert forall k :: 0 <= k < |SuspiciousPatterns| ==> lowered[k] == Lower(SuspiciousPatterns[k]);
      if FirstHit(Lower(question.s), lowered).Some? then Raised(ValueError(MaliciousInputMessage))
      else Returned(question)
  }

  /**
   * What `validate_query(sql)` does: return `True`, or raise `ValueError`
   * naming the first blocked operation found. It never returns `False`, and a
   * non-string has no `lower` to call.
   */
  function QueryVerdict(sql: Json): (r: Outcome<bool>)
    ensures r != Returned(false)
    ensures r == Returned(true) <==> sql.JStr? && !Blocked(sql.s)
    ensures !sql.JStr? ==> r == Raised(AttributeError(TypeName(sql), "lower"))
  {
    if !sql.JStr? then Raised(AttributeError(TypeName(sql), "lower"))
    else match FirstHit(Lower(sql.s), BlockedOperations)
      case Some(k) => Raised(ValueError(UnauthorizedPrefix + BlockedOperations[k]))
      case None => Returned(true)
  }

  /** `validate_input` (index.py:154-177): the emptiness and type check, then one pass over the patterns. */
  method ValidateInput(question: Json) returns (r: Outcome<Json>)
    ensures r == InputVerdict(question)
  {
    if !Truthy(question) || !question.JStr? {
      return Raised(ValueError(InvalidInputMessage));
    }
    var questionLower := Lower(question.s);
    ghost var lowered := seq(|SuspiciousPatterns|, k requires 0 <= k < |SuspiciousPatterns| => Lower(SuspiciousPatterns[k]));
    var i := 0;
    while i < |SuspiciousPatterns|
      invariant 0 <= i <= |SuspiciousPatterns|
      invariant forall j :: 0 <= j < i ==> !Contains(questionLower, lowered[j])
    {
      if Contains(questionLower, Lower(SuspiciousPatterns[i])) {
        assert Contains(questionLower, lowered[i]);
        return Raised(ValueError(MaliciousInputMessage));
      }
      i := i + 1;
    }
    return Returned(question);
  }

  /** `validate_query` (index.py:180-201): one pass over the blocked operations, raising at the first hit. */
  method ValidateQuery(sql: Json) returns (r: Outcome<bool>)
    ensures r == QueryVerdict(sql)
  {
    if !sql.JStr? {
      return Raised(AttributeError(TypeName(sql), "lower"));
    }
    var sqlLower := Lower(sql.s);
    var i := 0;
    while i < |BlockedOperations|
      invariant 0 <= i <= |BlockedOperations|
      invariant forall j :: 0 <= j < i ==> !Contains(sqlLower, BlockedOperations[j])
    {
      if Contains(sqlLower, BlockedOperations[i]) {
        return Raised(ValueError(UnauthorizedPrefix + BlockedOperations[i]));
      }
      i := i + 1;
    }
    return Returned(true);
  }

  /** The keyword reported is the first one in list order that the lower-cased SQL contains. */
  lemma QueryNamesFirstKeyword(sql: string, k: nat)
    requires k < |BlockedOperations| && Contains(Lower(sql), BlockedOperations[k])
    requires forall j :: 0 <= j < k ==> !Contains(Lower(sql), BlockedOperations[j])
    ensures QueryVerdict(JStr(sql)) == Raised(ValueError(UnauthorizedPrefix + BlockedOperations[k]))
  {
  }

  /** A blocked operation anywhere in the lower-cased SQL, token boundary or not, makes the query rejected. */
  lemma QueryRejectsSubstring(sql: string, k: nat, i: nat)
    requires k < |BlockedOperations| && OccursAt(Lower(sql), BlockedOperations[k], i)
    ensures QueryVerdict(JStr(sql)).Raised?
    ensures QueryVerdict(JStr(sql)).exc.ValueError?
  {
    ContainsAt(Lower(sql), BlockedOperations[k], i);
    assert Blocked(sql);
  }

  /** Text with no blocked operation at any position passes, whatever else it holds (nested selects included). */
  lemma QueryAcceptsClean(sql: string)
    requires forall k, i :: 0 <= k < |BlockedOperations| ==> !OccursAt(Lower(sql), BlockedOperations[k], i)
    ensures QueryVerdict(JStr(sql)) == Returned(true)
  {
    forall k | 0 <= k < |BlockedOperations|
      ensures !Contains(Lower(sql), BlockedOperations[k])
    {
      ContainsIff(Lower(sql), BlockedOperations[k]);
    }
  }

  /** A pattern occurring in the lower-cased question makes it rejected as malicious. */
  lemma InputRejectsSubstring(question: string, k: nat, i: nat)
    requires question != "" && k < |SuspiciousPatterns|
    requires OccursAt(Lower(question), Lower(SuspiciousPatterns[k]), i)
    ensures InputVerdict(JStr(question)) == Raised(ValueError(MaliciousInputMessage))
  {
    ContainsAt(Lower(question), Lower(SuspiciousPatterns[k]), i);
  }
}
