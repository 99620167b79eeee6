/**
 * `db_query_tool`: turns what the database driver returned for a query into
 * the text the conversation sees.
 */
module QueryTool {
  import opened Wrappers
  import opened Text
  import Graph

  /** "Error: Query failed. Please rewrite your query and try again." */
  const QueryFailedMessage := Graph.ErrorPrefix + " Query failed. Please rewrite your query and try again."
  const ResultsHeader := "Query Results:\n"

  /** One result row, read as a (name, time) pair. */
  datatype Row = Row(name: string, time: string)

  /**
   * What the driver returned: its text (empty when the query produced
   * nothing) and, when that text evaluates to a list of pairs, those pairs.
   */
  datatype DriverResult = DriverResult(text: string, parsed: Option<seq<Row>>)

  function RowLine(row: Row): string {
    "- " + row.name + ": " + row.time
  }

  function RowLines(rows: seq<Row>): (lines: seq<string>)
    ensures |lines| == |rows|
    ensures forall i :: 0 <= i < |rows| ==> lines[i] == RowLine(rows[i])
  {
    seq(|rows|, i requires 0 <= i < |rows| => RowLine(rows[i]))
  }

  /**
   * An empty driver result becomes the fixed diagnostic, parsed rows a
   * header followed by their lines, and unparsable text is passed through.
   * The output is never empty.
   */
  function DbQueryTool(result: DriverResult): (out: string)
    ensures result.text == "" ==> out == QueryFailedMessage
    ensures result.text != "" && result.parsed.Some? ==> StartsWith(out, ResultsHeader)
    ensures result.text != "" && result.parsed.Some? ==>
      out == ResultsHeader + Join(RowLines(result.parsed.value), "\n")
    ensures result.text != "" && result.parsed.None? ==> out == result.text
    ensures out != ""
  {
    if result.text == "" then QueryFailedMessage
    else match result.parsed
      case Some(rows) =>
        PrefixOfConcat(ResultsHeader, Join(RowLines(rows), "\n"));
        ResultsHeader + Join(RowLines(rows), "\n")
      case None => result.text
  }

  /**
   * The diagnostic for an empty result carries the error prefix, so the
   * generator, which runs next and sees it in the conversation, is told
   * that the query failed.
   */
  lemma QueryFailedIsError()
    ensures StartsWith(QueryFailedMessage, Graph.ErrorPrefix)
  {
  }

  predicate SingleLine(s: string) {
    '\n' !in s
  }

  /**
   * For parsed rows whose fields are single-line, the text after the header
   * splits on newlines into exactly one `- name: time` line per row, in order.
   */
  lemma {:induction false} FormattedRowsSplitBack(result: DriverResult)
    requires result.text != "" && result.parsed.Some? && |result.parsed.value| > 0
    requires forall r :: r in result.parsed.value ==> SingleLine(r.name) && SingleLine(r.time)
    ensures var out := DbQueryTool(result);
      Split(out[|ResultsHeader|..], '\n') == RowLines(result.parsed.value)
  {
    var rows := result.parsed.value;
    var lines := RowLines(rows);
    forall i | 0 <= i < |lines| ensures '\n' !in lines[i] {
      assert rows[i] in rows;
      assert lines[i] == "- " + rows[i].name + ": " + rows[i].time;
    }
    SplitJoin(lines, '\n');
    assert DbQueryTool(result)[|ResultsHeader|..] == Join(lines, "\n");
  }
}
