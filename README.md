# Edge query telemetry handlers, modelled in Dafny

This project models the two edge functions of a latency-probing proxy for
Neon Postgres. Each function receives a connection string and an ordered
batch of SQL queries, runs the queries one at a time against the database
and answers with one telemetry record (`CommonQuery`) per attempted
operation:

- `pages/api/query.ts` uses the pooled driver (`@neondatabase/serverless@0.4.15`).
  It first builds a `Pool`. If that throws, the answer is a single `connect`
  record and no query runs. Otherwise each query gives one `query` record,
  and the pool's teardown is scheduled after the response is built.
- `pages/api/v07/http_query.ts` uses the stateless HTTP driver
  (`@neondatabase/serverless@0.7.2`). It builds a `neon(...)` query function
  outside any local `try`, gives one `http_query` record per query, and its
  result envelope has no `oid`.

In both, a query whose driver call rejects, or which loses the race against
the global 15-second timer, yields a failed record and ends the batch. An
exception that escapes the handler body is turned by the outermost `catch`
into a response with a single `unhandled-exception`/`catch` record. This
holds for every thrown value that has a `stack` and a JSON form. The two
exceptions to it are listed under "Left out".

Files:

- `telemetry.dfy` (module `Telemetry`): the data model shared by both
  handlers: request, thrown errors, the driver oracle, records and
  responses. It also holds the record pieces both handlers write the same
  way: error text, duration, exit node, parameter normalisation and the
  catch record.
- `sequential.dfy` (module `Sequential`): `Run`, a reference definition of
  the break-on-first-failure batch rule over any record builder, with
  inductive lemmas about it.
- `pooled_query.dfy` (module `PooledQuery`) and `http_query.dfy` (module
  `HttpQuery`): for each handler, the record builder and `Expected`, a
  reference definition of its response. `AttemptQuery` is an imperative
  method for one query attempt, reassigning `finishedAt`, `response`,
  `error` and `isFailed` as the source does. `Handle` is an imperative
  method for the handler's `for` loop with its `break`. Both methods are
  proved equal to the reference definitions. The lemmas then state the
  handler's promises in its own terms.

The world outside the handlers is an input. The driver is a function from
(position, driver call) to an `Attempt`: the clock reading before the call
in milliseconds, and `Succeeded(result, finishedAt)`, `Failed(err)` or
`TimedOut`. Whether `new Pool(...)` or `neon(...)` throws is a
`Construction` value. The request body is `Decoded(request)` or
`Malformed(err)`. The serialisers (`JSON.stringify` of a query and of an
envelope, `toISOString`) are opaque function fields of a `Codec`.

Three behaviours of the code are worth noting:

- The exit node of a record is `"vercel-edge@" + region`. When the
  geolocation gives no region, JavaScript produces
  `"vercel-edge@undefined"`, not an "unknown" marker (`ExitNode`). Only the
  outermost catch record uses `"vercel-edge@unknown"`.
- In the stateless handler a failure of `neon(...)` is not a connect
  record. It escapes to the outermost catch (`HttpQuery.EscapesAreCaught`).
- `durationNs` is not guaranteed to be non-negative. It is non-negative
  only when the clock did not go backwards between the two readings
  (`DurationNs`).

## Model

| member | source | states |
|---|---|---|
| Telemetry.ErrorText | pages/api/query.ts:119 | the error text is the stack, one newline and the JSON text of the thrown value, each at its own position |
| Telemetry.ParseErrorText | pages/api/query.ts:119 | splitting at the last newline gives back a stack and a newline-free JSON text whose error text is the input; it fails exactly when the input has no newline |
| Telemetry.ErrorTextRoundTrip | pages/api/query.ts:119 | when the JSON text has no raw newline (as `JSON.stringify` without an indent never emits one), the error text reads back as the thrown value's stack and JSON text |
| Telemetry.ErrorTextInjective | pages/api/query.ts:119 | two thrown values with newline-free JSON texts and the same error text have the same stack and the same JSON text |
| Telemetry.NormaliseParams | pages/api/query.ts:94 | a `null` or missing params list becomes "no parameter list", and an array is passed on unchanged |
| Telemetry.DurationNs | pages/api/query.ts:123-126 | the duration is present exactly when `finishedAt` is; it equals (finishedAt − startedAt) ms × 1,000,000; it is a non-negative multiple of 1,000,000 when the clock did not go backwards |
| Telemetry.ExitNode | pages/api/query.ts:129 | the exit node is `vercel-edge@` followed by the region, or by `undefined` when there is no region |
| Sequential.Run | pages/api/query.ts:89-149 | the batch never yields more records than there are queries from the start position |
| Sequential.RunIsPrefix | pages/api/query.ts:89-142 | record j of the batch is the record of query j: the records are those of a prefix of the queries, in submission order |
| Sequential.RunStep | pages/api/query.ts:142-148 | appending the record of the current query either completes the batch (failed record, `break`) or extends the finished prefix by one |
| Sequential.RunFailsOnlyAtEnd | pages/api/query.ts:144-148 | every record but the last is successful, and the batch ends before the last query only on a failed record |
| Sequential.RunStopsAtFirstFailure | pages/api/query.ts:144-148 | if query k is the first whose record is failed, the batch has exactly the records of queries up to k, and only the last is failed |
| Sequential.RunWithoutFailure | pages/api/query.ts:89-149 | with no failed record, every query yields a record |
| Sequential.CallsFor | pages/api/query.ts:94-103 | one driver call per attempted query |
| Sequential.CallsForAt | pages/api/query.ts:94-103 | driver call j is made with query j's text and normalised params |
| Sequential.CallsForExtend | pages/api/query.ts:89-103 | attempting one more query appends its call after the earlier ones |
| PooledQuery.AttemptQuery | pages/api/query.ts:94-141 | one attempt (driver call, timeout sentinel turned into a thrown error, catch, duration, record) yields exactly the reference record, after calling the driver with the normalised params |
| PooledQuery.Handle | pages/api/query.ts:52-179 | the handler's response equals the reference response; pool teardown is scheduled exactly when the pool was built; the driver calls made are those of the first n queries, in order, where n is the number of records, and there are none when the body is malformed or `new Pool` threw |
| PooledQuery.RecordShape | pages/api/query.ts:96-141 | a `query` record is failed exactly when the driver rejected or the timer won; a failed record has an empty response and no `finishedAt`; a successful one has an empty error and the serialised `{rows, rowCount, command, oid, fields}`; a timeout's error is the deadline error; the duration follows `finishedAt` |
| PooledQuery.ConnectFailureIsSingleRecord | pages/api/query.ts:63-92 | when `new Pool` throws, the response is one failed `db`/`connect` record at the region's exit node and the request's address, with empty request and response, the thrown value's error text, the pool start time, and no `finishedAt` or duration |
| PooledQuery.RecordsFollowQueries | pages/api/query.ts:89-142 | with a pool, record j is the `query` record of query j and echoes its serialisation, and there are no more records than queries |
| PooledQuery.StopsAtFirstFailure | pages/api/query.ts:144-148 | if the k-th query (from 1) is the first to fail, there are exactly k records and only the k-th is failed |
| PooledQuery.AllQueriesSucceed | pages/api/query.ts:89-149 | if no query fails, there is one successful record with an empty error and a duration for each query |
| PooledQuery.EndsOnlyAtFailure | pages/api/query.ts:89-149 | every record but the last is successful, and fewer records than queries means the last one is failed |
| PooledQuery.MalformedBodyIsCaught | pages/api/query.ts:161-179 | a body that is not JSON yields one failed `unhandled-exception`/`catch` record at `vercel-edge@unknown` with address `unknown`, the thrown value's error text, empty request and response, and no timestamps or duration |
| HttpQuery.AttemptQuery | pages/api/v07/http_query.ts:55-101 | one attempt yields exactly the reference `http_query` record, after calling the driver with the normalised params |
| HttpQuery.Handle | pages/api/v07/http_query.ts:43-134 | the handler's response equals the reference response; the driver calls made are those of the first n queries, in order, where n is the number of records, and there are none when the body is malformed or `neon(...)` threw |
| HttpQuery.RecordShape | pages/api/v07/http_query.ts:56-101 | an `http_query` record is failed exactly when the driver rejected or the timer won; a failed record has an empty response and no `finishedAt`; a successful one has an empty error and the serialised `{rows, rowCount, command, fields}` without `oid`; the duration follows `finishedAt` |
| HttpQuery.RecordsFollowQueries | pages/api/v07/http_query.ts:54-102 | record j is the `db`/`http_query` record of query j and echoes its serialisation, so no `connect` record exists |
| HttpQuery.StopsAtFirstFailure | pages/api/v07/http_query.ts:104-106 | if the k-th query (from 1) is the first to fail, there are exactly k records and only the k-th is failed |
| HttpQuery.AllQueriesSucceed | pages/api/v07/http_query.ts:54-107 | if no query fails, there is one successful record with an empty error and a duration for each query |
| HttpQuery.EndsOnlyAtFailure | pages/api/v07/http_query.ts:54-107 | every record but the last is successful, and fewer records than queries means the last one is failed |
| HttpQuery.EscapesAreCaught | pages/api/v07/http_query.ts:115-133 | a body that is not JSON, or a `neon(...)` that throws, yields one failed `unhandled-exception`/`catch` record with no timestamps and the thrown value's error text |

## Left out

- A thrown `null` or `undefined`. Reading its `stack` throws a `TypeError` inside the connect or per-query `catch` (pages/api/query.ts:70, pages/api/query.ts:118, pages/api/v07/http_query.ts:78). That `TypeError` reaches the outermost catch, whose response drops the records built so far. The model's `Err` always has a stack, so this path is not modelled.
- A `JSON.stringify` or `e.stack` that throws inside the outermost `catch` itself (pages/api/query.ts:162-173, pages/api/v07/http_query.ts:116-127). Nothing catches it, so the handler rejects and sends no JSON response. `CatchResponse` assumes the serialisation succeeds.
- HTTP plumbing (`request.json()`, `NextResponse.json`, the request and event objects). The decoded body is an input and the response is a value. A body that is valid JSON but has the wrong shape is not modelled; the model's request always has a string connection string and a list of queries.
- The database drivers (`Pool`, `pool.query`, `neon`, `sql`). They are an oracle of attempts plus a `Construction` value. A driver that resolves to a falsy value is not modelled: the only falsy race result is the timer's `undefined`.
- `Promise.race` with the 15-second timer. Its effect appears only as the `TimedOut` outcome, and a timed-out query that keeps running on the database is not modelled.
- `geolocation(request)`. The region is an input.
- `endPool` and `event.waitUntil`. Teardown appears only as the `endsPool` flag of `PooledQuery.Handle`. Its asynchronous run and its logged errors are not modelled.
- `JSON.stringify`, `toISOString` and `e.stack`. They are opaque. The deadline error's stack holds only its first line (`Error: ` and the message), without the call frames. A `JSON.stringify` that throws (for example on a `BigInt` value) is not modelled. For the envelope it would give a failed record that has a `finishedAt`. For the query echo, or for the thrown value in the connect or per-query `catch`, it would escape to the outermost catch.
- `console.log` calls. They are logging only.
- `new Date()` and `getTime()`. Clock readings are integer milliseconds from the oracle. JavaScript numbers are doubles, and the duration arithmetic is assumed exact (products below 2^53).
