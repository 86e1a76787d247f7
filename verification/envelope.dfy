/**
 The response envelopes the handler returns to the agent
 (infrastructure/lambda_function.py, lines 35-47 and 91-153). Every envelope
 carries an action group, the API path "/query-logs", the method "POST", an
 HTTP status code and a body that is either an error message or the log rows.
 */
module Envelope {
  import opened Wrappers
  import opened Request

  /** One cell of a result row, as the engine returns it; VarCharValue is absent for NULL. */
  datatype Datum = Datum(varCharValue: Option<string>)

  /** The 'body' dictionary: {'error': ...} or {'logs': ...}. */
  datatype Body = ErrorBody(error: string) | LogsBody(logs: seq<seq<Datum>>)

  /** The "response" dictionary. */
  datatype Response = Response(actionGroup: string, apiPath: string, httpMethod: string,
                               httpStatusCode: int, body: Body)

  const ApiPath: string := "/query-logs"
  const HttpMethod: string := "POST"

  /** Line 37: the action group of the missing-parameter envelope is a literal, not the configured one. */
  const MissingParameterActionGroup: string := "accesslogs"

  const MissingParameterPrefix: string := "Missing required parameter: "
  const FailedReasonPrefix: string := "Athena query failed with reason: "
  const FailedStatusPrefix: string := "Athena query failed with status "

  /** str(KeyError(k)): the key's repr, which for these keys is the key in single quotes. */
  function KeyErrorText(k: Key): string
  {
    "'" + k.Text() + "'"
  }

  /** Lines 35-47. */
  function MissingParameter(k: Key): Response
  {
    Response(MissingParameterActionGroup, ApiPath, HttpMethod, 400,
             ErrorBody(MissingParameterPrefix + KeyErrorText(k)))
  }

  /** Lines 96-112: the engine reported FAILED with this reason. */
  function QueryFailed(actionGroup: string, reason: string): Response
  {
    Response(actionGroup, ApiPath, HttpMethod, 500, ErrorBody(FailedReasonPrefix + reason))
  }

  /** Lines 138-153: the loop ended in a state other than FAILED or SUCCEEDED. */
  function QueryEndedWith(actionGroup: string, status: string): Response
  {
    Response(actionGroup, ApiPath, HttpMethod, 500, ErrorBody(FailedStatusPrefix + status))
  }

  /** Lines 121-135. */
  function QuerySucceeded(actionGroup: string, logs: seq<seq<Datum>>): Response
  {
    Response(actionGroup, ApiPath, HttpMethod, 200, LogsBody(logs))
  }

  /** Different missing keys give different messages: the message names the key. */
  lemma MissingParameterNamesKey(k1: Key, k2: Key)
    ensures MissingParameter(k1) == MissingParameter(k2) <==> k1 == k2
  {
  }
}
