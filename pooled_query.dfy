/** The edge handler over the pooled driver (`@neondatabase/serverless`
    0.4.15): build a pool for the connection string, run the queries one at a
    time, one `query` record each, and stop at the first failure.  A pool that
    cannot be built gives one `connect` record and no query runs. */
module PooledQuery {
  import opened Telemetry
  import opened Sequential

  const DriverName := "@neondatabase/serverless@0.4.15"

  /** Everything the handler reads from outside: the caller's region, the
      clock readings at boot and before `new Pool`, whether `new Pool` throws,
      the driver (the `i`-th `pool.query` call raced against the global
      timer), and the serialisers. */
  datatype Env = Env(
    region: Option<string>,
    bootedAt: int,
    connectStartedAt: int,
    pool: Construction,
    driver: (nat, DriverCall) -> Attempt,
    codec: Codec)

  /** The attempt made for query `q` at position `i`. */
  function AttemptAt(env: Env, i: nat, q: Query): Attempt
  {
    env.driver(i, CallFor(q))
  }

  /** The pooled result envelope, `oid` included. */
  function PooledEnvelope(raw: RawResult): Envelope
  {
    WithOid(raw.rows, raw.rowCount, raw.command, raw.oid, raw.fields)
  }

  /** The record of a `new Pool` that threw. */
  function ConnectRecord(env: Env, connstr: string, e: Err): Record
  {
    Record(ExitNode(env.region), "db", connstr, DriverName, "connect", "", "", ErrorText(e),
           Some(env.connectStartedAt), None, true, None)
  }

  /** The record of the attempt of query `q` at position `i`. */
  function QueryRecord(env: Env, connstr: string, i: nat, q: Query): Record
  {
    var a := AttemptAt(env, i, q);
    var finishedAt := if a.outcome.Succeeded? then Some(a.outcome.finishedAt) else None;
    var response := if a.outcome.Succeeded? then env.codec.envelope(PooledEnvelope(a.outcome.result)) else "";
    var error := match a.outcome
      case Succeeded(_, _) => ""
      case Failed(e) => ErrorText(e)
      case TimedOut => ErrorText(DeadlineError(env.codec, env.bootedAt));
    Record(ExitNode(env.region), "db", connstr, DriverName, "query", env.codec.query(q),
           response, error, Some(a.startedAt), finishedAt, !a.outcome.Succeeded?,
           DurationNs(a.startedAt, finishedAt))
  }

  /** The record builder the batch rule of `Sequential.Run` is applied to. */
  function Builder(env: Env, connstr: string): (nat, Query) -> Record
  {
    (i: nat, q: Query) => QueryRecord(env, connstr, i, q)
  }

  /** The response the handler answers with, as a reference definition. */
  function Expected(body: Body, env: Env): Response
  {
    match body
    case Malformed(e) => CatchResponse(DriverName, e)
    case Decoded(req) =>
      match env.pool
      case Threw(e) => Response(DriverName, [ConnectRecord(env, req.connstr, e)])
      case Built => Response(DriverName, Run(req.queries, Builder(env, req.connstr), 0))
  }

  /** One query attempt: call the driver with the normalised parameters,
      turn a rejection or a lost race into a failed record, and build the
      record.  The ghost `call` is the driver call made. */
  method AttemptQuery(env: Env, connstr: string, i: nat, q: Query) returns (common: Record, ghost call: DriverCall)
    ensures call == CallFor(q)
    ensures common == QueryRecord(env, connstr, i, q)
  {
    var params := NormaliseParams(q.params);
    var driverCall := DriverCall(q.text, params);
    call := driverCall;
    var a := env.driver(i, driverCall);
    var startedAt := a.startedAt;
    var finishedAt: Option<int> := None;
    var response := "";
    var error := "";
    var isFailed := false;
    match a.outcome {
      case Succeeded(raw, t) =>
        finishedAt := Some(t);
        response := env.codec.envelope(WithOid(raw.rows, raw.rowCount, raw.command, raw.oid, raw.fields));
      case Failed(e) =>
        error := ErrorText(e);
        isFailed := true;
      case TimedOut =>
        error := ErrorText(DeadlineError(env.codec, env.bootedAt));
        isFailed := true;
    }
    var durationNs: Option<int> := None;
    if finishedAt.Some? {
      durationNs := Some((finishedAt.value - startedAt) * 1_000_000);
    }
    common := Record(ExitNode(env.region), "db", connstr, DriverName, "query", env.codec.query(q),
                     response, error, Some(startedAt), finishedAt, isFailed, durationNs);
  }

  /** The handler.  `endsPool` says that teardown of the pool is scheduled,
      and the ghost `calls` lists the driver calls made, in order. */
  method Handle(body: Body, env: Env) returns (resp: Response, endsPool: bool, ghost calls: seq<DriverCall>)
    ensures resp == Expected(body, env)
    ensures endsPool <==> body.Decoded? && env.pool.Built?
    ensures body.Decoded? && env.pool.Built? ==>
      calls == CallsFor(body.req.queries[..|resp.queries|])
    ensures body.Malformed? || env.pool.Threw? ==> calls == []
  {
    calls := [];
    if body.Malformed? {
      resp, endsPool := CatchResponse(DriverName, body.err), false;
      return;
    }
    var req := body.req;
    var queries: seq<Record> := [];
    var hasFailedQuery := false;

    var poolBuilt := false;
    match env.pool {
      case Built =>
        poolBuilt := true;
      case Threw(e) =>
        var common := Record(ExitNode(env.region), "db", req.connstr, DriverName, "connect", "", "", ErrorText(e),
                             Some(env.connectStartedAt), None, true, None);
        queries := queries + [common];
        hasFailedQuery := true;
    }

    ghost var build := Builder(env, req.connstr);
    var i := 0;
    while i < |req.queries|
      invariant 0 <= i <= |req.queries|
      invariant poolBuilt <==> env.pool.Built?
      invariant !poolBuilt ==> hasFailedQuery && queries == [ConnectRecord(env, req.connstr, env.pool.err)] && calls == []
      invariant poolBuilt ==> !hasFailedQuery && queries + Run(req.queries, build, i) == Run(req.queries, build, 0)
      invariant poolBuilt ==> |calls| == |queries| == i
      invariant calls == CallsFor(req.queries[..|calls|])
    {
      if hasFailedQuery {
        break;
      }
      var q := req.queries[i];
      var common, call := AttemptQuery(env, req.connstr, i, q);
      CallsForExtend(req.queries, i);
      calls := calls + [call];
      assert common == build(i, q);
      RunStep(req.queries, build, i, queries);
      queries := queries + [common];
      if common.isFailed {
        hasFailedQuery := true;
        break;
      }
      i := i + 1;
    }
    assert poolBuilt ==> queries == Run(req.queries, build, 0);

    resp := Response(DriverName, queries);
    endsPool := poolBuilt;
  }

  /** Whether the attempt for query `q` at position `i` fails: the driver
      rejected, or the global timer won the race. */
  predicate Fails(env: Env, i: nat, q: Query)
  {
    !AttemptAt(env, i, q).outcome.Succeeded?
  }

  /** The shape of a query record follows from its attempt's outcome. */
  lemma RecordShape(env: Env, connstr: string, i: nat, q: Query)
    ensures var r, a := QueryRecord(env, connstr, i, q), AttemptAt(env, i, q);
      r.methodName == "query" && r.kind == "db" && r.addr == connstr && r.driver == DriverName &&
      r.request == env.codec.query(q) && r.startedAt == Some(a.startedAt) &&
      (r.isFailed <==> Fails(env, i, q)) &&
      (r.isFailed ==> r.response == "" && r.finishedAt.None?) &&
      (!r.isFailed ==> r.error == "" && r.finishedAt == Some(a.outcome.finishedAt) &&
                       r.response == env.codec.envelope(PooledEnvelope(a.outcome.result))) &&
      (a.outcome.Failed? ==> r.error == ErrorText(a.outcome.err)) &&
      (a.outcome.TimedOut? ==> r.error == ErrorText(DeadlineError(env.codec, env.bootedAt))) &&
      (r.durationNs.Some? <==> r.finishedAt.Some?) &&
      (r.finishedAt.Some? ==> r.durationNs.value == (r.finishedAt.value - a.startedAt) * 1_000_000)
  {
  }

  /** When `new Pool` throws, the response is the one `connect` record. */
  lemma ConnectFailureIsSingleRecord(req: BatchRequest, env: Env)
    requires env.pool.Threw?
    ensures var rs := Expected(Decoded(req), env).queries;
      |rs| == 1 && rs[0].methodName == "connect" && rs[0].kind == "db" && rs[0].isFailed &&
      rs[0].addr == req.connstr && rs[0].exitnode == ExitNode(env.region) && rs[0].driver == DriverName &&
      rs[0].request == "" && rs[0].response == "" && rs[0].error == ErrorText(env.pool.err) &&
      rs[0].startedAt == Some(env.connectStartedAt) &&
      rs[0].finishedAt.None? && rs[0].durationNs.None?
  {
  }

  /** With a pool, record `j` is the `query` record of query `j`: records come
      out in submission order and are a prefix of the batch. */
  lemma RecordsFollowQueries(req: BatchRequest, env: Env)
    requires env.pool.Built?
    ensures var rs := Expected(Decoded(req), env).queries;
      |rs| <= |req.queries| &&
      forall j :: 0 <= j < |rs| ==>
        rs[j] == QueryRecord(env, req.connstr, j, req.queries[j]) &&
        rs[j].methodName == "query" && rs[j].request == env.codec.query(req.queries[j])
  {
    var build := Builder(env, req.connstr);
    RunIsPrefix(req.queries, build, 0);
    var rs := Run(req.queries, build, 0);
    forall j | 0 <= j < |rs| ensures j < |req.queries| && rs[j] == QueryRecord(env, req.connstr, j, req.queries[j]) {
      assert rs[j] == build(0 + j, req.queries[0 + j]);
    }
  }

  /** If the `k`-th query (counting from 1) is the first to fail, there are
      exactly `k` records and only the last is failed. */
  lemma StopsAtFirstFailure(req: BatchRequest, env: Env, k: nat)
    requires env.pool.Built?
    requires 1 <= k <= |req.queries|
    requires Fails(env, k - 1, req.queries[k - 1])
    requires forall j :: 0 <= j < k - 1 ==> !Fails(env, j, req.queries[j])
    ensures var rs := Expected(Decoded(req), env).queries;
      |rs| == k && rs[k - 1].isFailed && forall j :: 0 <= j < k - 1 ==> !rs[j].isFailed
  {
    var build := Builder(env, req.connstr);
    forall j | 0 <= j < k - 1 ensures !build(j, req.queries[j]).isFailed {
      assert !Fails(env, j, req.queries[j]);
    }
    RunStopsAtFirstFailure(req.queries, build, 0, k - 1);
  }

  /** If no query fails, every query has one successful, timed record. */
  lemma AllQueriesSucceed(req: BatchRequest, env: Env)
    requires env.pool.Built?
    requires forall j :: 0 <= j < |req.queries| ==> !Fails(env, j, req.queries[j])
    ensures var rs := Expected(Decoded(req), env).queries;
      |rs| == |req.queries| &&
      forall j :: 0 <= j < |rs| ==> !rs[j].isFailed && rs[j].error == "" && rs[j].durationNs.Some?
  {
    RunWithoutFailure(req.queries, Builder(env, req.connstr), 0);
    RunIsPrefix(req.queries, Builder(env, req.connstr), 0);
  }

  /** Whatever the outcomes, the batch ends only at a failure: every record but
      the last is successful, and fewer records than queries means the last
      record is failed. */
  lemma EndsOnlyAtFailure(req: BatchRequest, env: Env)
    requires env.pool.Built?
    ensures var rs := Expected(Decoded(req), env).queries;
      (forall j :: 0 <= j < |rs| - 1 ==> !rs[j].isFailed) &&
      (|rs| < |req.queries| ==> rs != [] && rs[|rs| - 1].isFailed)
  {
    RunFailsOnlyAtEnd(req.queries, Builder(env, req.connstr), 0);
  }

  /** A body that is not JSON escapes to the outermost `catch`, which answers
      with one `catch` record. */
  lemma MalformedBodyIsCaught(e: Err, env: Env)
    ensures var resp := Expected(Malformed(e), env);
      resp.driverName == DriverName && |resp.queries| == 1 &&
      resp.queries[0].kind == "unhandled-exception" && resp.queries[0].methodName == "catch" &&
      resp.queries[0].exitnode == "vercel-edge@unknown" && resp.queries[0].addr == "unknown" &&
      resp.queries[0].isFailed && resp.queries[0].error == ErrorText(e) &&
      resp.queries[0].request == "" && resp.queries[0].response == "" &&
      resp.queries[0].startedAt.None? && resp.queries[0].finishedAt.None? && resp.queries[0].durationNs.None?
  {
  }
}
