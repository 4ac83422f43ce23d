/**
 * Worked examples on concrete SQL and events, kept apart from the
 * definitions they exercise.
 */
module Scenarios {
  import opened Text
  import opened Runtime
  import opened Guard
  import opened Envelope
  import opened DataApi
  import opened Handlers

  /** Case does not matter: "DROP", "Drop" and "drop" in SQL are all refused, with the keyword named in lower case. */
  lemma DropTableRejected()
    ensures QueryVerdict(JStr("DROP TABLE students")) == Raised(ValueError("Unauthorized SQL operation detected: drop"))
  {
    var s := "DROP TABLE students";
    assert Lower(s)[..4] == "drop";
    assert Contains(Lower(s), BlockedOperations[0]);
    QueryNamesFirstKeyword(s, 0);
    assert UnauthorizedPrefix + BlockedOperations[0] == "Unauthorized SQL operation detected: drop";
  }

  /**
   * The blocklist has no notion of tokens: a column called `dropped_at` is
   * refused as a `drop`.
   */
  lemma DroppedColumnRejected()
    ensures QueryVerdict(JStr("select dropped_at from orders")) == Raised(ValueError(UnauthorizedPrefix + "drop"))
  {
    var before, after := "select ", "dropped_at from orders";
    var s := before + after;
    assert "select dropped_at from orders" == s;
    assert s[7..11] == after[..4] == "drop";
    assert Lower(s)[7..11] == BlockedOperations[0];
    ContainsAt(Lower(s), BlockedOperations[0], 7);
    QueryNamesFirstKeyword(s, 0);
  }

  /** A worked example: `DROP TABLE students` is refused with a 500 naming `drop`, not executed. */
  lemma ExecuteDropTable(actionGroup: Json, config: Config, execute: Executor)
    ensures var properties := JList([JDict([("name", JStr("query")), ("value", JStr("DROP TABLE students"))])]);
      && StatusOf(ExecuteResponse(properties, actionGroup, config, execute)) == Some(500)
      && ErrorText(ExecuteResponse(properties, actionGroup, config, execute))
         == Some("Server error: " + "Unauthorized SQL operation detected: drop")
      && DatabaseRequest(properties, config) == None
  {
    var prop := JDict([("name", JStr("query")), ("value", JStr("DROP TABLE students"))]);
    LookupAt(prop.fields, 0);
    LookupAt(prop.fields, 1);
    ScanLastWins([prop], 0, "query");
    DropTableRejected();
    ExecuteRefusedQuery(JList([prop]), actionGroup, config, execute, "DROP TABLE students", "Unauthorized SQL operation detected: drop");
  }
}
