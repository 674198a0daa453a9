/** The data model shared by both edge handlers: the decoded request, the
    driver oracle that replaces the database and the clock, the per-operation
    telemetry record (CommonQuery) and the pieces of record construction that
    both handlers write identically. */
module Telemetry {

  datatype Option<+T> = None | Some(value: T)

  /** A JSON value supplied by the caller or returned by the database, kept as
      its text: the handlers only pass these values along. */
  type Value = string

  /** The `params` member of one submitted query: missing, an explicit `null`,
      or an array of values. */
  datatype Params = Absent | Null | Given(values: seq<Value>)

  /** One element of the request's `queries` array (SLQuery). */
  datatype Query = Query(text: string, params: Params)

  /** The decoded request body (SLRequest). */
  datatype BatchRequest = BatchRequest(connstr: string, queries: seq<Query>)

  /** A thrown JavaScript value, seen through the two things the handlers read
      from it: its `stack` text and its `JSON.stringify` text. */
  datatype Err = Err(stack: string, json: string)

  /** What `await request.json()` gives: a request, or the exception thrown
      when the body is not JSON. */
  datatype Body = Decoded(req: BatchRequest) | Malformed(err: Err)

  /** The outcome of constructing a driver handle (`new Pool(...)`, `neon(...)`). */
  datatype Construction = Built | Threw(err: Err)

  /** Column metadata as the driver reports it. */
  datatype Field = Field(name: string, dataTypeId: int)

  /** A result object as the driver resolves it. */
  datatype RawResult = RawResult(
    rows: seq<map<string, Value>>,
    rowCount: Option<int>,
    command: string,
    oid: Option<int>,
    fields: seq<Field>)

  /** The result envelope that is serialised into a successful record's
      `response`: the pooled driver's has an `oid` member, the stateless
      driver's has none. */
  datatype Envelope =
    | WithOid(rows: seq<map<string, Value>>, rowCount: Option<int>, command: string,
              oid: Option<int>, fields: seq<Field>)
    | WithoutOid(rows: seq<map<string, Value>>, rowCount: Option<int>, command: string,
                 fields: seq<Field>)

  /** The parameter list actually handed to the driver for one query;
      `None` is JavaScript's `undefined` ("no parameter list"). */
  datatype DriverCall = DriverCall(text: string, params: Option<seq<Value>>)

  /** How the race between the driver call and the global 15 s timer settled:
      the driver resolved (and the clock then read `finishedAt` ms), the
      driver rejected, or the timer won and the race gave `undefined`. */
  datatype Outcome = Succeeded(result: RawResult, finishedAt: int) | Failed(err: Err) | TimedOut

  /** One query attempt: the clock reading taken just before the driver call,
      in milliseconds, and how the call settled. */
  datatype Attempt = Attempt(startedAt: int, outcome: Outcome)

  /** The serialisers the handlers call and that this model does not open up:
      `JSON.stringify` of a submitted query and of a result envelope, and
      `Date.prototype.toISOString` of a clock reading in milliseconds. */
  datatype Codec = Codec(query: Query -> string, envelope: Envelope -> string, iso: int -> string)

  /** One telemetry record (CommonQuery); timestamps are milliseconds and
      `methodName` is the source's `method` member. */
  datatype Record = Record(
    exitnode: string,
    kind: string,
    addr: string,
    driver: string,
    methodName: string,
    request: string,
    response: string,
    error: string,
    startedAt: Option<int>,
    finishedAt: Option<int>,
    isFailed: bool,
    durationNs: Option<int>)

  /** The response body (SLResponse). */
  datatype Response = Response(driverName: string, queries: seq<Record>)

  /** The text stored in a record's `error`: the stack, a newline, and the
      JSON form of the thrown value. */
  function ErrorText(e: Err): (t: string)
    ensures |t| == |e.stack| + 1 + |e.json|
    ensures t[..|e.stack|] == e.stack && t[|e.stack|] == '\n' && t[|e.stack| + 1..] == e.json
  {
    e.stack + "\n" + e.json
  }

  /** `JSON.stringify` without an indent never emits a raw newline, so the
      first newline after the stack is the separator: the error text alone
      determines both the stack and the JSON text. */
  lemma ErrorTextInjective(e1: Err, e2: Err)
    requires '\n' !in e1.json && '\n' !in e2.json
    requires ErrorText(e1) == ErrorText(e2)
    ensures e1 == e2
  {
    ErrorTextRoundTrip(e1);
    ErrorTextRoundTrip(e2);
  }

  /** The position of the last newline in `t`, if any. */
  function LastNewline(t: string): (k: Option<nat>)
    ensures k.Some? ==> k.value < |t| && t[k.value] == '\n'
    ensures k.Some? ==> forall j :: k.value < j < |t| ==> t[j] != '\n'
    ensures k.None? ==> '\n' !in t
  {
    if t == [] then None
    else if t[|t| - 1] == '\n' then Some(|t| - 1)
    else LastNewline(t[..|t| - 1])
  }

  /** Reading a record's `error` back: the stack is everything before the last
      newline and the JSON text everything after it. */
  function ParseErrorText(t: string): (e: Option<Err>)
    ensures e.Some? ==> ErrorText(e.value) == t && '\n' !in e.value.json
    ensures e.None? <==> '\n' !in t
  {
    match LastNewline(t)
    case None => None
    case Some(k) => Some(Err(t[..k], t[k + 1..]))
  }

  /** The error text of a thrown value whose JSON form has no raw newline
      reads back as that value. */
  lemma ErrorTextRoundTrip(e: Err)
    requires '\n' !in e.json
    ensures ParseErrorText(ErrorText(e)) == Some(e)
  {
  }

  /** The error thrown when the race resolves to the timer's `undefined`: a
      plain `Error` whose message names the moment the function booted.  Its
      own properties are not enumerable, so its JSON form is `{}`. */
  function DeadlineError(codec: Codec, bootedAt: int): Err
  {
    Err("Error: global 15s timeout exceeded, edge function was invoked at " + codec.iso(bootedAt), "{}")
  }

  /** `params == null` holds for both `null` and a missing member; either
      becomes `undefined`, and an array is passed on unchanged. */
  function NormaliseParams(p: Params): (r: Option<seq<Value>>)
    ensures r.None? <==> (p.Absent? || p.Null?)
    ensures p.Given? ==> r == Some(p.values)
  {
    match p
    case Given(vs) => Some(vs)
    case _ => None
  }

  /** The driver call made for a query. */
  function CallFor(q: Query): DriverCall
  {
    DriverCall(q.text, NormaliseParams(q.params))
  }

  /** `durationNs`: defined exactly when `finishedAt` is, as the difference of
      the two millisecond readings scaled to nanoseconds. */
  function DurationNs(startedAt: int, finishedAt: Option<int>): (d: Option<int>)
    ensures d.Some? <==> finishedAt.Some?
    ensures finishedAt.Some? ==> d.value == (finishedAt.value - startedAt) * 1_000_000
    ensures finishedAt.Some? && startedAt <= finishedAt.value ==> d.value >= 0 && d.value % 1_000_000 == 0
  {
    match finishedAt
    case Some(f) => Some((f - startedAt) * 1_000_000)
    case None => None
  }

  /** The exit node name.  A missing region is concatenated as JavaScript's
      `undefined`, giving "vercel-edge@undefined". */
  function ExitNode(region: Option<string>): (s: string)
    ensures |s| >= 12 && s[..12] == "vercel-edge@"
    ensures region.Some? ==> s[12..] == region.value
    ensures region.None? ==> s[12..] == "undefined"
  {
    "vercel-edge@" + match region { case Some(r) => r case None => "undefined" }
  }

  /** The single record the outermost `catch` answers with. */
  function CatchRecord(driverName: string, e: Err): Record
  {
    Record("vercel-edge@unknown", "unhandled-exception", "unknown", driverName, "catch",
           "", "", ErrorText(e), None, None, true, None)
  }

  /** The response of the outermost `catch`: exactly one record. */
  function CatchResponse(driverName: string, e: Err): Response
  {
    Response(driverName, [CatchRecord(driverName, e)])
  }
}
