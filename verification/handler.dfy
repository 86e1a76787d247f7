/**
 The Lambda handler end to end (infrastructure/lambda_function.py, lines 22-153):
 extract the filter, build the query, submit it, poll until the state settles,
 and map the final state to an envelope.

 The engine is not called; its answers are inputs: the execution id returned on
 submission, the sequence of poll replies, and the result rows. The handler's
 calls to the engine are recorded as a trace. The module-level settings read
 from the environment (lines 16-20) are a `Config`.
 */
module Handler {
  import opened Wrappers
  import opened Request
  import opened Query
  import opened Poll
  import opened Envelope

  /** Lines 16-20: the settings the handler reads from its environment. */
  datatype Config = Config(database: string, table: string, outputLocation: string,
                           workGroup: string, actionGroup: string)

  /** Lines 16-20: the values used when an environment variable is not set. */
  const DefaultConfig: Config :=
    Config("default_database", "default_table", "s3://default-output-bucket/", "primary",
           "QueryAthenaSecurityLogs")

  /** One result row; the handler passes its 'Data' list through unchanged. */
  datatype Row = Row(data: seq<Datum>)

  /** What the engine answers: the QueryExecutionId of the submission, the successive
      poll replies, and the result rows (header first). */
  datatype Engine = Engine(executionId: string, replies: seq<Reply>, rows: seq<Row>)

  /** A call the handler makes to the engine. */
  datatype Call =
    | StartQueryExecution(queryString: string, database: string, outputLocation: string, workGroup: string)
    | GetQueryExecution(executionId: string)
    | GetQueryResults(executionId: string)

  /** How an invocation ends: with an envelope; with an uncaught KeyError (a FAILED reply
      without StateChangeReason, line 97); or still polling when every given reply is
      transient. */
  datatype Outcome = Returned(response: Response) | Raised(key: string) | StillPolling

  /** The engine calls made, in order, and how the invocation ended. */
  datatype Invocation = Invocation(calls: seq<Call>, outcome: Outcome)

  /** `n` status queries for one execution. */
  function Polls(executionId: string, n: nat): (r: seq<Call>)
    ensures |r| == n && forall i :: 0 <= i < n ==> r[i] == GetQueryExecution(executionId)
  {
    seq(n, _ => GetQueryExecution(executionId))
  }

  /** Lines 117-119: appends each row's 'Data' in turn. */
  function DataOf(rows: seq<Row>): (r: seq<seq<Datum>>)
    ensures |r| == |rows|
    ensures forall i :: 0 <= i < |rows| ==> r[i] == rows[i].data
    decreases |rows|
  {
    if |rows| == 0 then []
    else DataOf(rows[..|rows| - 1]) + [rows[|rows| - 1].data]
  }

  /** Python's rows[1:]: the rows after the header; empty when there are none. */
  function SkipHeader(rows: seq<Row>): seq<Row>
  {
    if |rows| == 0 then [] else rows[1..]
  }

  /** Lines 115-135: the log entries are the data rows, header dropped, in order. */
  function Logs(rows: seq<Row>): (logs: seq<seq<Datum>>)
    ensures |logs| == if |rows| == 0 then 0 else |rows| - 1
    ensures forall i :: 0 <= i < |logs| ==> logs[i] == rows[i + 1].data
  {
    DataOf(SkipHeader(rows))
  }

  /** Lines 91-153: the envelope for the reply the loop stopped at. */
  function Settle(cfg: Config, engine: Engine, last: Reply): Outcome
  {
    if last.state == Failed then
      match last.stateChangeReason
      case None => Raised("StateChangeReason")
      case Some(reason) => Returned(QueryFailed(cfg.actionGroup, reason))
    else if last.state == Succeeded then
      Returned(QuerySucceeded(cfg.actionGroup, Logs(engine.rows)))
    else
      Returned(QueryEndedWith(cfg.actionGroup, last.state))
  }

  /** lambda_handler. */
  function Handle(cfg: Config, event: Event, engine: Engine): (r: Invocation)
    ensures r.outcome.Returned? ==>
              && r.outcome.response.apiPath == ApiPath
              && r.outcome.response.httpMethod == HttpMethod
              && r.outcome.response.httpStatusCode in {200, 400, 500}
    ensures (r.outcome.Returned? && r.outcome.response.httpStatusCode == 400) <==> ExtractFilter(event).Err?
    ensures r.outcome.Returned? && r.outcome.response.httpStatusCode != 400 ==>
              r.outcome.response.actionGroup == cfg.actionGroup
    ensures r.calls == [] <==> ExtractFilter(event).Err?
  {
    match ExtractFilter(event)
    case Err(k) => Invocation([], Returned(MissingParameter(k)))
    case Ok(f) =>
      var submit := StartQueryExecution(BuildQuery(cfg.table, f), cfg.database, cfg.outputLocation, cfg.workGroup);
      var id := engine.executionId;
      match FirstSettled(engine.replies)
      case None => Invocation([submit] + Polls(id, |engine.replies|), StillPolling)
      case Some(i) =>
        var last := engine.replies[i];
        var fetch := if last.state == Succeeded then [GetQueryResults(id)] else [];
        Invocation([submit] + Polls(id, i + 1) + fetch, Settle(cfg, engine, last))
  }

  // ---------------------------------------------------------------------------
  // End-to-end properties

  /** Lines 27-47: a missing key ends the invocation before any engine call, with a 400
      envelope that names the key and carries the literal action group "accesslogs". */
  lemma MissingKeyResponse(cfg: Config, event: Event, engine: Engine, k: Key)
    requires ExtractFilter(event) == Err(k)
    ensures Handle(cfg, event, engine) ==
              Invocation([], Returned(Response("accesslogs", "/query-logs", "POST", 400,
                ErrorBody("Missing required parameter: '" + k.Text() + "'"))))
  {
    assert MissingParameterPrefix + KeyErrorText(k) == "Missing required parameter: '" + k.Text() + "'";
  }

  /** Lines 55-77: the first engine call submits the built query with the configured
      database, output location and workgroup. */
  lemma SubmitsBuiltQuery(cfg: Config, event: Event, engine: Engine)
    requires ExtractFilter(event).Ok?
    ensures var calls := Handle(cfg, event, engine).calls;
            |calls| >= 1 &&
            calls[0] == StartQueryExecution(BuildQuery(cfg.table, ExtractFilter(event).value),
                                            cfg.database, cfg.outputLocation, cfg.workGroup)
  {
  }

  /** Lines 80-86: the handler issues one status query per reply up to and including the
      first non-transient one, at least one in all, all for the submitted execution, and
      fetches results only after SUCCEEDED. */
  lemma PollsUntilSettled(cfg: Config, event: Event, engine: Engine)
    requires ExtractFilter(event).Ok?
    requires FirstSettled(engine.replies).Some?
    ensures var i, calls := FirstSettled(engine.replies).value, Handle(cfg, event, engine).calls;
            var id := engine.executionId;
            && |calls| >= 2
            && (forall j :: 1 <= j <= i + 1 ==> calls[j] == GetQueryExecution(id))
            && (engine.replies[i].state == "SUCCEEDED" ==> |calls| == i + 3 && calls[i + 2] == GetQueryResults(id))
            && (engine.replies[i].state != "SUCCEEDED" ==> |calls| == i + 2)
  {
  }

  /** Lines 80-86: replies after the one the loop stops at are never consumed. */
  lemma LaterRepliesIgnored(cfg: Config, event: Event, engine: Engine, later: seq<Reply>)
    requires FirstSettled(engine.replies).Some?
    ensures Handle(cfg, event, engine.(replies := engine.replies + later)) == Handle(cfg, event, engine)
  {
    FirstSettledIgnoresLater(engine.replies, later);
    var i := FirstSettled(engine.replies).value;
    assert (engine.replies + later)[i] == engine.replies[i];
  }

  /** Lines 81-86: with no wait budget, an execution that stays RUNNING or QUEUED keeps the
      handler polling; no envelope is produced. */
  lemma NoTimeout(cfg: Config, event: Event, engine: Engine)
    requires ExtractFilter(event).Ok?
    ensures Handle(cfg, event, engine).outcome == StillPolling <==>
              forall j :: 0 <= j < |engine.replies| ==> Transient(engine.replies[j].state)
  {
  }

  /** Lines 115-135: SUCCEEDED gives 200 and the result rows after the header, in order;
      a header-only or empty result gives 200 with no logs. */
  lemma SucceededResponse(cfg: Config, event: Event, engine: Engine)
    requires ExtractFilter(event).Ok?
    requires FirstSettled(engine.replies).Some?
    requires engine.replies[FirstSettled(engine.replies).value].state == "SUCCEEDED"
    ensures var out := Handle(cfg, event, engine).outcome;
            && out.Returned?
            && out.response.actionGroup == cfg.actionGroup
            && out.response.apiPath == "/query-logs"
            && out.response.httpMethod == "POST"
            && out.response.httpStatusCode == 200
            && out.response.body.LogsBody?
            && |out.response.body.logs| == (if |engine.rows| == 0 then 0 else |engine.rows| - 1)
            && (forall k :: 0 <= k < |out.response.body.logs| ==>
                  out.response.body.logs[k] == engine.rows[k + 1].data)
  {
  }

  /** Lines 96-112: FAILED gives 500 with the engine's reason verbatim; a FAILED reply
      without a reason raises KeyError out of the handler. */
  lemma FailedResponse(cfg: Config, event: Event, engine: Engine)
    requires ExtractFilter(event).Ok?
    requires FirstSettled(engine.replies).Some?
    requires engine.replies[FirstSettled(engine.replies).value].state == "FAILED"
    ensures var last := engine.replies[FirstSettled(engine.replies).value];
            Handle(cfg, event, engine).outcome ==
              match last.stateChangeReason
              case None => Raised("StateChangeReason")
              case Some(reason) =>
                Returned(Response(cfg.actionGroup, "/query-logs", "POST", 500,
                                  ErrorBody("Athena query failed with reason: " + reason)))
  {
  }

  /** Lines 137-153: any other state the loop stops at (CANCELLED, or one the handler does
      not name) gives 500 with that state in the message. */
  lemma OtherStatusResponse(cfg: Config, event: Event, engine: Engine)
    requires ExtractFilter(event).Ok?
    requires FirstSettled(engine.replies).Some?
    requires engine.replies[FirstSettled(engine.replies).value].state !in {"FAILED", "SUCCEEDED"}
    ensures var last := engine.replies[FirstSettled(engine.replies).value];
            && last.state != "RUNNING" && last.state != "QUEUED"
            && Handle(cfg, event, engine).outcome ==
                 Returned(Response(cfg.actionGroup, "/query-logs", "POST", 500,
                                   ErrorBody("Athena query failed with status " + last.state)))
  {
  }

  /** Lines 16-32 and 55-77: with the default settings and an empty properties list, the
      handler submits the fully constrained default query. */
  lemma DefaultSubmission(engine: Engine)
    ensures var event := Event(Some(RequestBody(Some(Content(Some(JsonContent(Some([]))))))));
            Handle(DefaultConfig, event, engine).calls[0] ==
              StartQueryExecution(
                "SELECT * FROM " + "default_table" + " WHERE 1=1" +
                " AND year='2024'" + " AND month='10'" + " AND day='17'" + " AND hour='01'",
                "default_database", "s3://default-output-bucket/", "primary")
  {
    var event := Event(Some(RequestBody(Some(Content(Some(JsonContent(Some([]))))))));
    var f := Filter(DefaultYear, DefaultMonth, DefaultDay, DefaultHour);
    assert ExtractFilter(event) == Ok(f);
    BuildQueryClauses(DefaultConfig.table, f);
    DefaultClauses();
  }
}
