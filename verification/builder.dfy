/**
 * `LogBuilder` (src/index.ts): one per request. It holds the start time and
 * the last captured response body, and assembles the log record when the
 * response completes.
 */
module Builder {
  import opened Js
  import opened JsStrings
  import opened Extract

  /**
   * LogData. Optional fields are `undefined` when absent. The elapsed time is
   * kept as the raw difference of two monotonic-clock readings, in
   * nanoseconds; `timestamp` is the ISO-8601 text of the wall clock.
   */
  datatype LogRecord = LogRecord(
    httpMethod: Value,
    path: Value,
    status: int,
    elapsedNs: int,
    timestamp: string,
    clientIp: Value,
    userAgent: Value,
    origin: Value,
    referer: Value,
    host: Value,
    contentType: Value,
    errorMessage: Value)

  /**
   * The record `build` returns for a request, a response and a captured body.
   * Building throws only where extractClientIp throws.
   */
  function Record(req: Request, res: Response, body: Value, elapsedNs: int, timestamp: string, json: Json)
    : (r: Completion<LogRecord>)
    ensures r.Throw? <==> ClientIp(req).Throw?
    ensures r.Normal? ==>
              && r.value.status == res.statusCode
              && r.value.elapsedNs == elapsedNs
              && r.value.timestamp == timestamp
    // `req.method || "UNKNOWN"`: always truthy, the request's method whenever it is truthy
    ensures r.Normal? ==>
              && Truthy(r.value.httpMethod)
              && (Truthy(req.httpMethod) ==> r.value.httpMethod == req.httpMethod)
              && (!Truthy(req.httpMethod) ==> r.value.httpMethod == Str("UNKNOWN"))
    // `req.originalUrl || req.url || "/"`
    ensures r.Normal? ==>
              && Truthy(r.value.path)
              && (Truthy(req.originalUrl) ==> r.value.path == req.originalUrl)
              && (!Truthy(req.originalUrl) && Truthy(req.url) ==> r.value.path == req.url)
              && (!Truthy(req.originalUrl) && !Truthy(req.url) ==> r.value.path == Str("/"))
    ensures r.Normal? ==>
              && r.value.clientIp == ClientIp(req).value
              && r.value.errorMessage == ErrorMessage(req, res, body, json)
  {
    assert Truthy(Str("UNKNOWN")) && Truthy(Str("/")) by {
      assert |"UNKNOWN"| == 7 && |"/"| == 1;
    }
    match ClientIp(req)
    case Throw(e) => Throw(e)
    case Normal(clientIp) =>
      Normal(LogRecord(
        httpMethod := Or(req.httpMethod, Str("UNKNOWN")),
        path := Or(req.originalUrl, Or(req.url, Str("/"))),
        status := res.statusCode,
        elapsedNs := elapsedNs,
        timestamp := timestamp,
        clientIp := clientIp,
        userAgent := Header(req, "user-agent"),
        origin := Header(req, "origin"),
        referer := Header(req, "referer"),
        host := Header(req, "host"),
        contentType := Header(req, "content-type"),
        errorMessage := ErrorMessage(req, res, body, json)))
  }

  /**
   * Unfolds Record's non-throwing branch in one step. It states nothing
   * beyond Record's own contract; proofs about concrete requests call it to
   * keep the solver from exploring Record's body.
   */
  lemma RecordFields(req: Request, res: Response, body: Value, elapsedNs: int, timestamp: string, json: Json)
    requires ClientIp(req).Normal?
    ensures Record(req, res, body, elapsedNs, timestamp, json)
            == Normal(LogRecord(Or(req.httpMethod, Str("UNKNOWN")), Or(req.originalUrl, Or(req.url, Str("/"))),
                                res.statusCode, elapsedNs, timestamp, ClientIp(req).value,
                                Header(req, "user-agent"), Header(req, "origin"), Header(req, "referer"),
                                Header(req, "host"), Header(req, "content-type"),
                                ErrorMessage(req, res, body, json)))
  {
  }

  /** The five header fields of the record are extractHeader of their lower-case names. */
  lemma RecordHeaders(req: Request, res: Response, body: Value, elapsedNs: int, timestamp: string, json: Json)
    requires ClientIp(req).Normal?
    ensures var r := Record(req, res, body, elapsedNs, timestamp, json).value;
            && r.userAgent == Header(req, "user-agent")
            && r.origin == Header(req, "origin")
            && r.referer == Header(req, "referer")
            && r.host == Header(req, "host")
            && r.contentType == Header(req, "content-type")
  {
  }

  /**
   * Outside [400, 600) the record carries no error message, whatever body was
   * captured: the body is irrelevant to the whole record there.
   */
  lemma BodyIrrelevantOutsideErrorRange(req: Request, res: Response, b1: Value, b2: Value,
                                        elapsedNs: int, timestamp: string, json: Json)
    requires !InErrorRange(res.statusCode)
    ensures Record(req, res, b1, elapsedNs, timestamp, json) == Record(req, res, b2, elapsedNs, timestamp, json)
    ensures Record(req, res, b1, elapsedNs, timestamp, json).Normal? ==>
              Record(req, res, b1, elapsedNs, timestamp, json).value.errorMessage == Undefined
  {
  }

  class LogBuilder {
    /** The monotonic-clock reading taken when the builder was made. */
    const startTime: int
    /** The last body passed to setResponseBody; `null` until then. */
    var responseBody: Value

    constructor (now: int)
      ensures startTime == now && responseBody == Null
    {
      startTime := now;
      responseBody := Null;
    }

    /** setResponseBody: overwrites the captured body, whatever it held. */
    method SetResponseBody(body: Value)
      modifies this
      ensures responseBody == body
    {
      responseBody := body;
    }

    /**
     * build, given the monotonic-clock reading `now` and the wall-clock
     * `timestamp`: the record for the body captured so far.
     */
    method Build(req: Request, res: Response, now: int, timestamp: string, json: Json)
      returns (r: Completion<LogRecord>)
      ensures r == Record(req, res, responseBody, now - startTime, timestamp, json)
    {
      r := Record(req, res, responseBody, now - startTime, timestamp, json);
    }
  }

  /** The body a builder holds after the given captures: the last one, or `null`. */
  function LastCaptured(captures: seq<Value>): (body: Value)
    ensures |captures| == 0 ==> body == Null
    ensures |captures| > 0 ==> body == captures[|captures| - 1]
  {
    if |captures| == 0 then Null else captures[|captures| - 1]
  }

  /**
   * What observabilityRoutes arranges for one request: a builder made at
   * `start`; every body handed to res.json or res.send, in order, captured
   * before the original method runs; the record built when the response
   * closes at `now`. Only the last capture reaches the record.
   */
  method HandleRequest(req: Request, res: Response, captures: seq<Value>,
                       start: int, now: int, timestamp: string, json: Json)
    returns (r: Completion<LogRecord>)
    ensures r == Record(req, res, LastCaptured(captures), now - start, timestamp, json)
  {
    var builder := new LogBuilder(start);
    for i := 0 to |captures|
      invariant builder.responseBody == LastCaptured(captures[..i])
    {
      builder.SetResponseBody(captures[i]);
    }
    assert captures[..|captures|] == captures;
    r := builder.Build(req, res, now, timestamp, json);
  }

  /**
   * Capturing a second body on a builder overwrites the first: the record
   * built afterwards is the one for the second body alone.
   */
  method SecondCaptureWins(req: Request, res: Response, first: Value, second: Value,
                           start: int, now: int, timestamp: string, json: Json)
    returns (r: Completion<LogRecord>)
    ensures r == Record(req, res, second, now - start, timestamp, json)
  {
    var builder := new LogBuilder(start);
    builder.SetResponseBody(first);
    builder.SetResponseBody(second);
    r := builder.Build(req, res, now, timestamp, json);
  }
}
