# Security-log query proxy: a Dafny model

This project models the Lambda handler `lambda_handler` of the security-log
summarizer (`infrastructure/lambda_function.py`). A conversational agent calls the
handler with a list of `{name, value}` properties. The handler:

1. reads `year`, `month`, `day` and `hour` from that list, with defaults;
2. builds an Athena SQL query with one equality clause per dimension whose value is
   not the wildcard `any`;
3. submits the query and polls the execution until its state is no longer
   `RUNNING` or `QUEUED`;
4. answers with one response envelope: 400 for a missing key, 500 for a failed or
   otherwise unsuccessful execution, 200 with the result rows for a successful one.

The model is functional. Athena is not called. What Athena would answer is an
input (`Handler.Engine`): the execution id, the finite sequence of poll replies,
and the result rows. The handler's calls to Athena are recorded as a trace
(`Handler.Call`). The environment settings of lines 16-20 are a `Handler.Config`;
`Handler.DefaultConfig` holds their fallback values.

Modules, one per stage of the handler:

- `Wrappers`: `Option` and `Result`.
- `Request`: the event's nested keys, each of which may be missing. Also the
  dictionary comprehension that flattens the properties (left to right, name
  before value) and the defaults `'2024'`, `'10'`, `'17'`, `'01'`.
- `Query`: ASCII lower-casing, the `any` wildcard, and the query text built by
  successive appends. Also a reference reading of a query back into its
  constraints (`ParseQuery`), used to state what the text says.
- `Poll`: the poll replies, `FirstSettled` (the reply the loop stops at), and the
  loop itself as a method.
- `Envelope`: the four kinds of envelope and their fixed fields.
- `Handler`: `Handle`, the whole invocation, and the end-to-end properties.

How an invocation ends (`Handler.Outcome`):

- `Returned(response)`: the handler returns an envelope.
- `Raised("StateChangeReason")`: the final state is `FAILED` but the reply has no
  `StateChangeReason`. Line 97 then raises a `KeyError` that nothing catches.
- `StillPolling`: every given reply is transient. The real loop has no wait budget
  and would keep polling.

Behaviour of the handler that is easy to assume otherwise:

- The hour default is `'01'`, not `any`.
- The table name is interpolated bare. There is no database prefix and no
  identifier quoting.
- The poll loop has no wait budget, so there is no timeout outcome.
- The success body is only `{'logs': [...]}`. Each entry is a row's raw `Data`
  list, not a map keyed by column name. There is no `message`, `query` or
  `total_count`.
- The 400 envelope uses the literal action group `"accesslogs"`.
- A missing `name` or `value` in a property also gives 400, not only a missing
  container.
- Submission, poll and fetch errors are not caught, so there are no envelopes for
  them.

## Model

| member | source | states |
|---|---|---|
| Request.ExtractFilterFails | infrastructure/lambda_function.py:27-28 | A missing requestBody, content, application/json or properties key fails with exactly that key, checked outermost first. With the list present, extraction succeeds iff every item has both name and value; otherwise it fails with the key missing from the first incomplete item (name before value). |
| Request.CollectFailsAtFirstIncomplete | infrastructure/lambda_function.py:28 | The comprehension fails iff some item is incomplete, and then with the key missing from the first such item. |
| Request.CollectLastWins | infrastructure/lambda_function.py:28 | The flattened map has exactly the names that occur in the list. Each maps to the value of its last occurrence. |
| Request.FilterDefaults | infrastructure/lambda_function.py:28-32 | Each filter field is the value of the last property with that name, or '2024', '10', '17', '01' when no property has that name. |
| Request.ExtraNamesIgnored | infrastructure/lambda_function.py:28-32 | Appending a property whose name is not year, month, day or hour leaves the extraction result unchanged. |
| Query.IsAnySpellings | infrastructure/lambda_function.py:58-65 | A value is the wildcard iff it is one of the eight letter-case spellings of "any". |
| Query.BuildQuery | infrastructure/lambda_function.py:55-65 | The query always starts with "SELECT * FROM " + table + " WHERE 1=1". It is exactly that prefix when all four values are the wildcard. |
| Query.ConstraintsExact | infrastructure/lambda_function.py:58-65 | A dimension is constrained iff its value is not the wildcard, and then by its value verbatim. |
| Query.ConstraintsOrdered | infrastructure/lambda_function.py:58-65 | The constrained dimensions appear in strictly increasing order year, month, day, hour, so each appears at most once. |
| Query.BuildQueryRenders | infrastructure/lambda_function.py:55-65 | The query built by successive appends is the prefix followed by one " AND <dim>='<value>'" clause per constraint, in order. |
| Query.ParseRender | infrastructure/lambda_function.py:58-65 | Reading clause text back recovers the constraints it was rendered from, provided no value contains a quote. |
| Query.QueryRoundTrip | infrastructure/lambda_function.py:55-65 | Provided no value contains a quote, reading the query back yields exactly the filter's constraints. |
| Query.QueryNotInjective | infrastructure/lambda_function.py:58-65 | Values are embedded without escaping. A year value carrying "' AND month='10" produces the same query as a genuine month constraint. |
| Query.DefaultQuery | infrastructure/lambda_function.py:29-65 | With all four defaults, the query is the prefix + " AND year='2024' AND month='10' AND day='17' AND hour='01'". |
| Poll.FirstSettled | infrastructure/lambda_function.py:80-86 | The reply the loop stops at is the first whose state is neither RUNNING nor QUEUED. There is none iff every reply is transient. |
| Poll.FirstSettledIgnoresLater | infrastructure/lambda_function.py:80-86 | Replies after the one the loop stops at do not change where it stops. |
| Poll.FirstSettledUnique | infrastructure/lambda_function.py:80-86 | Any index whose reply is non-transient and preceded only by transient replies is the one FirstSettled returns. |
| Poll.PollUntilSettled | infrastructure/lambda_function.py:80-86 | The loop as written issues at least one status query. It stops at the first non-transient reply and consumes no further replies. |
| Poll.PollAgreesWithFirstSettled | infrastructure/lambda_function.py:80-86 | The loop as written stops at the reply FirstSettled names. This is the FirstSettled that Handle uses. |
| Envelope.MissingParameterNamesKey | infrastructure/lambda_function.py:33-47 | Two missing-parameter envelopes are equal iff they are for the same key: the message names the key. |
| Handler.DataOf | infrastructure/lambda_function.py:117-119 | Appending each row's Data in turn yields, position by position, the Data of every row. |
| Handler.Logs | infrastructure/lambda_function.py:115-119 | The logs are the rows after the header, in order. There are max(0, rows-1) of them. |
| Handler.Handle | infrastructure/lambda_function.py:22-153 | Every envelope has apiPath "/query-logs", method "POST" and status 200, 400 or 500. Status 400 occurs iff extraction failed, and exactly then no engine call is made. Every other envelope carries the configured action group. |
| Handler.MissingKeyResponse | infrastructure/lambda_function.py:26-47 | A missing key gives no engine call and a 400 envelope with action group "accesslogs", "/query-logs", "POST" and error "Missing required parameter: '<key>'". |
| Handler.SubmitsBuiltQuery | infrastructure/lambda_function.py:55-77 | The first engine call submits the built query with the configured database, output location and workgroup. |
| Handler.PollsUntilSettled | infrastructure/lambda_function.py:80-116 | One status query is made for the execution id per reply, up to and including the first non-transient one. Results are fetched once, last, iff that state is SUCCEEDED. |
| Handler.LaterRepliesIgnored | infrastructure/lambda_function.py:80-86 | Once the loop has stopped, further replies change neither the calls made nor the outcome. |
| Handler.NoTimeout | infrastructure/lambda_function.py:80-86 | With the properties extracted, the handler is still polling iff every reply is RUNNING or QUEUED. There is no timeout outcome. |
| Handler.SucceededResponse | infrastructure/lambda_function.py:115-135 | SUCCEEDED gives 200 with the configured action group. The logs are the rows after the header, in order: max(0, rows-1) entries, and none for an empty or header-only result. |
| Handler.FailedResponse | infrastructure/lambda_function.py:96-112 | FAILED gives 500 with error "Athena query failed with reason: " + the engine's reason, verbatim. Without a reason, the handler raises KeyError. |
| Handler.OtherStatusResponse | infrastructure/lambda_function.py:137-153 | Any other final state, such as CANCELLED or an unnamed one, gives 500 with error "Athena query failed with status " + that state. |
| Handler.DefaultSubmission | infrastructure/lambda_function.py:16-74 | With the default settings and an empty properties list, the submitted query is "SELECT * FROM default_table WHERE 1=1 AND year='2024' AND month='10' AND day='17' AND hour='01'". It goes to database default_database, output s3://default-output-bucket/, workgroup primary. |

## Left out

- Calls to Athena (`start_query_execution`, `get_query_execution`, `get_query_results`) and the unused S3 client. Their answers are inputs and the calls are recorded as a trace.
- Exceptions raised by those calls, and missing keys in their answers other than `StateChangeReason`. The handler does not catch them.
- `time.sleep`, logging and `json.dumps`. They are side effects that do not affect the envelope.
- Reading the environment. The five settings are a `Config`.
- Shape errors in the event other than a missing key. The typed event cannot express them. Some of them raise an exception that nothing catches. A non-dict level on the key path, a non-iterable `properties`, or an item that is not a dict raises `TypeError` (lines 27-28). So does an unhashable `name` (line 28). A non-string value that ends up under `year`, `month`, `day` or `hour` raises `AttributeError` at `.lower()` (lines 58-64). Other shape errors pass silently. A non-string hashable `name`, such as a number or null, becomes a key that no `.get` reads. A non-string value under any other name is never read. An empty non-list `properties`, such as `""` or `{}`, iterates nothing, so all four defaults apply.
- Query.IsAnySpellings: lower-casing is ASCII only, where Python's `str.lower` covers all of Unicode. The two can differ on "any" only if some non-ASCII character lowered to a, n or y.
- Handler.NoTimeout: the real loop never ends while the engine stays transient. The model stops when the finite reply sequence runs out and reports `StillPolling`. The calls recorded then are the ones that were answered.
- The exact text of `str(KeyError)`: it is modelled as the key in single quotes. That is Python's `repr` for these six plain keys.
