/** The edge handler over the stateless HTTP driver (`@neondatabase/serverless`
    0.7.2): build a query function for the connection string, run the queries
    one at a time, one `http_query` record each, and stop at the first
    failure.  Nothing outside the per-query `try` is caught before the
    outermost `catch`. */
module HttpQuery {
  import opened Telemetry
  import opened Sequential

  const DriverName := "@neondatabase/serverless@0.7.2"

  /** Everything the handler reads from outside: the caller's region, the
      clock reading at boot, whether `neon(...)` throws, the driver (the
      `i`-th `sql(...)` call raced against the global timer), and the
      serialisers. */
  datatype Env = Env(
    region: Option<string>,
    bootedAt: int,
    sql: Construction,
    driver: (nat, DriverCall) -> Attempt,
    codec: Codec)

  /** The attempt made for query `q` at position `i`. */
  function AttemptAt(env: Env, i: nat, q: Query): Attempt
  {
    env.driver(i, CallFor(q))
  }

  /** The stateless result envelope: the full result without an `oid`. */
  function HttpEnvelope(raw: RawResult): Envelope
  {
    WithoutOid(raw.rows, raw.rowCount, raw.command, raw.fields)
  }

  /** The record of the attempt of query `q` at position `i`. */
  function QueryRecord(env: Env, connstr: string, i: nat, q: Query): Record
  {
    var a := AttemptAt(env, i, q);
    var finishedAt := if a.outcome.Succeeded? then Some(a.outcome.finishedAt) else None;
    var response := if a.outcome.Succeeded? then env.codec.envelope(HttpEnvelope(a.outcome.result)) else "";
    var error := match a.outcome
      case Succeeded(_, _) => ""
      case Failed(e) => ErrorText(e)
      case TimedOut => ErrorText(DeadlineError(env.codec, env.bootedAt));
    Record(ExitNode(env.region), "db", connstr, DriverName, "http_query", env.codec.query(q),
           response, error, Some(a.startedAt), finishedAt, !a.outcome.Succeeded?,
           DurationNs(a.startedAt, finishedAt))
  }

  /** The record builder the batch rule of `Sequential.Run` is applied to. */
  function Builder(env: Env, connstr: string): (nat, Query) -> Record
  {
    (i: nat, q: Query) => QueryRecord(env, connstr, i, q)
  }

  /** The response the handler answers with, as a reference definition. */
  function Expected(body: Body, env: Env): Response
  {
    match body
    case Malformed(e) => CatchResponse(DriverName, e)
    case Decoded(req) =>
      match env.sql
      case Threw(e) => CatchResponse(DriverName, e)
      case Built => Response(DriverName, Run(req.queries, Builder(env, req.connstr), 0))
  }

  /** One query attempt: call the driver with the normalised parameters,
      turn a rejection or a lost race into a failed record, and build the
      record.  The ghost `call` is the driver call made. */
  method AttemptQuery(env: Env, connstr: string, i: nat, q: Query) returns (common: Record, ghost call: DriverCall)
    ensures call == CallFor(q)
    ensures common == QueryRecord(env, connstr, i, q)
  {
    var params := NormaliseParams(q.params);
    var driverCall := DriverCall(q.text, params);
    call := driverCall;
    var a := env.driver(i, driverCall);
    var startedAt := a.startedAt;
    var finishedAt: Option<int> := None;
    var response := "";
    var error := "";
    var isFailed := false;
    match a.outcome {
      case Succeeded(raw, t) =>
        finishedAt := Some(t);
        response := env.codec.envelope(WithoutOid(raw.rows, raw.rowCount, raw.command, raw.fields));
      case Failed(e) =>
        error := ErrorText(e);
        isFailed := true;
      case TimedOut =>
        error := ErrorText(DeadlineError(env.codec, env.bootedAt));
        isFailed := true;
    }
    var durationNs: Option<int> := None;
    if finishedAt.Some? {
      durationNs := Some((finishedAt.value - startedAt) * 1_000_000);
    }
    common := Record(ExitNode(env.region), "db", connstr, DriverName, "http_query", env.codec.query(q),
                     response, error, Some(startedAt), finishedAt, isFailed, durationNs);
  }

  /** The handler.  The ghost `calls` lists the driver calls made, in order. */
  method Handle(body: Body, env: Env) returns (resp: Response, ghost calls: seq<DriverCall>)
    ensures resp == Expected(body, env)
    ensures body.Decoded? && env.sql.Built? ==>
      calls == CallsFor(body.req.queries[..|resp.queries|])
    ensures body.Malformed? || env.sql.Threw? ==> calls == []
  {
    calls := [];
    if body.Malformed? {
      resp := CatchResponse(DriverName, body.err);
      return;
    }
    var req := body.req;
    var queries: seq<Record> := [];
    if env.sql.Threw? {
      resp := CatchResponse(DriverName, env.sql.err);
      return;
    }

    ghost var build := Builder(env, req.connstr);
    var i := 0;
    while i < |req.queries|
      invariant 0 <= i <= |req.queries|
      invariant queries + Run(req.queries, build, i) == Run(req.queries, build, 0)
      invariant |calls| == |queries| == i
      invariant calls == CallsFor(req.queries[..|calls|])
    {
      var q := req.queries[i];
      var common, call := AttemptQuery(env, req.connstr, i, q);
      CallsForExtend(req.queries, i);
      calls := calls + [call];
      assert common == build(i, q);
      RunStep(req.queries, build, i, queries);
      queries := queries + [common];
      if common.isFailed {
        break;
      }
      i := i + 1;
    }
    assert queries == Run(req.queries, build, 0);

    resp := Response(DriverName, queries);
  }

  /** Whether the attempt for query `q` at position `i` fails: the driver
      rejected, or the global timer won the race. */
  predicate Fails(env: Env, i: nat, q: Query)
  {
    !AttemptAt(env, i, q).outcome.Succeeded?
  }

  /** The shape of a query record follows from its attempt's outcome. */
  lemma RecordShape(env: Env, connstr: string, i: nat, q: Query)
    ensures var r, a := QueryRecord(env, connstr, i, q), AttemptAt(env, i, q);
      r.methodName == "http_query" && r.kind == "db" && r.addr == connstr && r.driver == DriverName &&
      r.request == env.codec.query(q) && r.startedAt == Some(a.startedAt) &&
      (r.isFailed <==> Fails(env, i, q)) &&
      (r.isFailed ==> r.response == "" && r.finishedAt.None?) &&
      (!r.isFailed ==> r.error == "" && r.finishedAt == Some(a.outcome.finishedAt) &&
                       r.response == env.codec.envelope(HttpEnvelope(a.outcome.result))) &&
      (a.outcome.Failed? ==> r.error == ErrorText(a.outcome.err)) &&
      (a.outcome.TimedOut? ==> r.error == ErrorText(DeadlineError(env.codec, env.bootedAt))) &&
      (r.durationNs.Some? <==> r.finishedAt.Some?) &&
      (r.finishedAt.Some? ==> r.durationNs.value == (r.finishedAt.value - a.startedAt) * 1_000_000)
  {
  }

  /** Every record of a batch that reached the loop is a `db`/`http_query`
      record of the query at its position: no `connect` record exists, and
      records are a prefix of the batch in submission order. */
  lemma RecordsFollowQueries(req: BatchRequest, env: Env)
    requires env.sql.Built?
    ensures var rs := Expected(Decoded(req), env).queries;
      |rs| <= |req.queries| &&
      forall j :: 0 <= j < |rs| ==>
        rs[j] == QueryRecord(env, req.connstr, j, req.queries[j]) &&
        rs[j].methodName == "http_query" && rs[j].kind == "db" &&
        rs[j].request == env.codec.query(req.queries[j])
  {
    var build := Builder(env, req.connstr);
    RunIsPrefix(req.queries, build, 0);
    var rs := Run(req.queries, build, 0);
    forall j | 0 <= j < |rs| ensures j < |req.queries| && rs[j] == QueryRecord(env, req.connstr, j, req.queries[j]) {
      assert rs[j] == build(0 + j, req.queries[0 + j]);
    }
  }

  /** If the `k`-th query (counting from 1) is the first to fail, there are
      exactly `k` records and only the last is failed. */
  lemma StopsAtFirstFailure(req: BatchRequest, env: Env, k: nat)
    requires env.sql.Built?
    requires 1 <= k <= |req.queries|
    requires Fails(env, k - 1, req.queries[k - 1])
    requires forall j :: 0 <= j < k - 1 ==> !Fails(env, j, req.queries[j])
    ensures var rs := Expected(Decoded(req), env).queries;
      |rs| == k && rs[k - 1].isFailed && forall j :: 0 <= j < k - 1 ==> !rs[j].isFailed
  {
    var build := Builder(env, req.connstr);
    forall j | 0 <= j < k - 1 ensures !build(j, req.queries[j]).isFailed {
      assert !Fails(env, j, req.queries[j]);
    }
    RunStopsAtFirstFailure(req.queries, build, 0, k - 1);
  }

  /** If no query fails, every query has one successful, timed record. */
  lemma AllQueriesSucceed(req: BatchRequest, env: Env)
    requires env.sql.Built?
    requires forall j :: 0 <= j < |req.queries| ==> !Fails(env, j, req.queries[j])
    ensures var rs := Expected(Decoded(req), env).queries;
      |rs| == |req.queries| &&
      forall j :: 0 <= j < |rs| ==> !rs[j].isFailed && rs[j].error == "" && rs[j].durationNs.Some?
  {
    RunWithoutFailure(req.queries, Builder(env, req.connstr), 0);
    RunIsPrefix(req.queries, Builder(env, req.connstr), 0);
  }

  /** Whatever the outcomes, the batch ends only at a failure. */
  lemma EndsOnlyAtFailure(req: BatchRequest, env: Env)
    requires env.sql.Built?
    ensures var rs := Expected(Decoded(req), env).queries;
      (forall j :: 0 <= j < |rs| - 1 ==> !rs[j].isFailed) &&
      (|rs| < |req.queries| ==> rs != [] && rs[|rs| - 1].isFailed)
  {
    RunFailsOnlyAtEnd(req.queries, Builder(env, req.connstr), 0);
  }

  /** A body that is not JSON, or a `neon(...)` that throws, escapes to the
      outermost `catch`, which answers with one `catch` record. */
  lemma EscapesAreCaught(body: Body, env: Env)
    requires body.Malformed? || env.sql.Threw?
    ensures var resp, e := Expected(body, env), if body.Malformed? then body.err else env.sql.err;
      resp.driverName == DriverName && |resp.queries| == 1 &&
      resp.queries[0].kind == "unhandled-exception" && resp.queries[0].methodName == "catch" &&
      resp.queries[0].exitnode == "vercel-edge@unknown" && resp.queries[0].addr == "unknown" &&
      resp.queries[0].isFailed && resp.queries[0].error == ErrorText(e) &&
      resp.queries[0].request == "" && resp.queries[0].response == "" &&
      resp.queries[0].startedAt.None? && resp.queries[0].finishedAt.None? && resp.queries[0].durationNs.None?
  {
  }
}
