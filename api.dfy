/**
 * The HTTP-facing decisions: the two outlet read endpoints and the
 * extraction of the final answer that the query endpoint returns.
 */
module Api {
  import opened Wrappers
  import opened Messages

  /** A row of the `outlets` table. */
  datatype Outlet = Outlet(
    id: int,
    name: string,
    address: string,
    workDayStart: string,
    workDayEnd: string,
    startTime: string,
    endTime: string,
    latitude: real,
    longitude: real)

  datatype HttpError = HttpError(status: int, detail: string)

  const NoOutletsFound := HttpError(404, "No outlets found.")
  const OutletNotFound := HttpError(404, "Outlet not found.")

  /** `GET /outlets`: every row, in table order, or 404 when the table is empty. */
  function GetAllOutlets(table: seq<Outlet>): (r: Result<seq<Outlet>, HttpError>)
    ensures r.Failure? <==> |table| == 0
    ensures r.Failure? ==> r.error == NoOutletsFound
    ensures r.Success? ==> r.value == table
  {
    if |table| == 0 then Failure(NoOutletsFound) else Success(table)
  }

  /** Row `i` is the first row of the table carrying `outletId`. */
  predicate FirstWithId(table: seq<Outlet>, outletId: int, i: int) {
    && 0 <= i < |table|
    && table[i].id == outletId
    && forall j :: 0 <= j < i ==> table[j].id != outletId
  }

  /**
   * `GET /outlets/{id}`: the first row with that id, or 404 when no row has
   * it.
   */
  function GetOutlet(table: seq<Outlet>, outletId: int): (r: Result<Outlet, HttpError>)
    ensures r.Failure? <==> forall i :: 0 <= i < |table| ==> table[i].id != outletId
    ensures r.Failure? ==> r.error == OutletNotFound
    ensures r.Success? ==> exists i :: FirstWithId(table, outletId, i) && table[i] == r.value
  {
    if |table| == 0 then Failure(OutletNotFound)
    else if table[0].id == outletId then Success(table[0])
    else
      var r := GetOutlet(table[1..], outletId);
      if r.Success? then
        ghost var i :| FirstWithId(table[1..], outletId, i) && table[1..][i] == r.value;
        assert FirstWithId(table, outletId, i + 1);
        r
      else r
  }

  /** A row found by id is among the rows the list endpoint returns. */
  lemma FoundOutletIsListed(table: seq<Outlet>, outletId: int)
    requires GetOutlet(table, outletId).Success?
    ensures GetAllOutlets(table).Success?
    ensures GetOutlet(table, outletId).value in GetAllOutlets(table).value
  {
  }

  /** Why `POST /query` failed; each becomes a 500 response. */
  datatype AnswerFailure =
    | NoMessages            // the final state holds no message
    | LastNotModelReply     // the last message has no `tool_calls`
    | NoToolCall            // its call list is empty
    | NoFinalAnswerArgument // the first call has no `final_answer` argument
    | EmptyFinalAnswer      // that argument is empty

  const FinalAnswerKey := "final_answer"

  /**
   * The query endpoint's answer: the `final_answer` argument of the first
   * call of the last message, refused when missing or empty, so a success is
   * never empty.
   */
  function ExtractFinalAnswer(messages: seq<Message>): (r: Result<string, AnswerFailure>)
    ensures r.Success? ==> r.value != ""
    ensures r.Success? <==>
      && |messages| > 0
      && HasToolCalls(Last(messages))
      && FinalAnswerKey in Last(messages).toolCalls[0].args
      && Last(messages).toolCalls[0].args[FinalAnswerKey] != ""
    ensures r.Success? ==> r.value == Last(messages).toolCalls[0].args[FinalAnswerKey]
    ensures r == Failure(EmptyFinalAnswer) <==>
      && |messages| > 0
      && HasToolCalls(Last(messages))
      && FinalAnswerKey in Last(messages).toolCalls[0].args
      && Last(messages).toolCalls[0].args[FinalAnswerKey] == ""
  {
    if |messages| == 0 then Failure(NoMessages)
    else
      var last := Last(messages);
      if !last.AIMessage? then Failure(LastNotModelReply)
      else if |last.toolCalls| == 0 then Failure(NoToolCall)
      else if FinalAnswerKey !in last.toolCalls[0].args then Failure(NoFinalAnswerArgument)
      else
        var answer := last.toolCalls[0].args[FinalAnswerKey];
        if answer == "" then Failure(EmptyFinalAnswer) else Success(answer)
  }

  /**
   * After a run that ended, the answer comes from a SubmitFinalAnswer call,
   * and only its argument can make the request fail.
   */
  lemma TerminalAnswer(messages: seq<Message>)
    requires |messages| > 0 && Terminal(Last(messages))
    ensures Last(messages).toolCalls[0].name == SubmitFinalAnswerName
    ensures ExtractFinalAnswer(messages).Failure? ==>
      ExtractFinalAnswer(messages).error == NoFinalAnswerArgument ||
      ExtractFinalAnswer(messages).error == EmptyFinalAnswer
  {
  }
}
