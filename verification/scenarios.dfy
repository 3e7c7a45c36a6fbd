/**
 * What the model gives on concrete requests, stated as lemmas: the
 * behaviours the log builder is expected to show on specific inputs.
 */
module Scenarios {
  import opened Js
  import opened JsStrings
  import opened Extract
  import opened Builder

  /** A request that carries only the given headers. */
  function WithHeaders(headers: map<string, Value>): (req: Request)
    ensures req.headers == Obj(headers)
    ensures req.ip == Undefined && req.socket == Undefined && req.connection == Undefined
  {
    Request(Undefined, Undefined, Undefined, Obj(headers), Undefined, Undefined, Undefined, Undefined)
  }

  /** A multi-valued header yields its first value. */
  lemma MultiValuedHeader()
    ensures Header(WithHeaders(map["host" := Arr([Str("1.2.3.4"), Str("5.6.7.8")])]), "host") == Str("1.2.3.4")
  {
    LowerOfLowerCase("host");
  }

  /** An empty array is truthy, but its first element is `undefined`. */
  lemma EmptyArrayHeader()
    ensures Header(WithHeaders(map["host" := Arr([])]), "host") == Undefined
  {
    LowerOfLowerCase("host");
  }

  /** x-forwarded-for beats x-real-ip; its first entry is taken, trimmed. */
  lemma ForwardedForBeatsRealIp()
    ensures ClientIp(WithHeaders(map["x-forwarded-for" := Str("9.9.9.9, 8.8.8.8"),
                                      "x-real-ip" := Str("1.1.1.1")]))
            == Normal(Str("9.9.9.9"))
  {
    var req := WithHeaders(map["x-forwarded-for" := Str("9.9.9.9, 8.8.8.8"), "x-real-ip" := Str("1.1.1.1")]);
    assert HeaderAt(req, "x-forwarded-for") == Str("9.9.9.9, 8.8.8.8");
    assert "" + "9.9.9.9" + "" + ", 8.8.8.8" == "9.9.9.9, 8.8.8.8";
    ForwardedForFirstHop(req, "", "9.9.9.9", "", ", 8.8.8.8");
  }

  /**
   * A truthy x-forwarded-for whose first entry is blank yields the empty
   * string: it still decides, and x-real-ip is not consulted.
   */
  lemma BlankFirstHopStillDecides()
    ensures ClientIp(WithHeaders(map["x-forwarded-for" := Str(" ,8.8.8.8"),
                                      "x-real-ip" := Str("1.1.1.1")]))
            == Normal(Str(""))
  {
    var req := WithHeaders(map["x-forwarded-for" := Str(" ,8.8.8.8"), "x-real-ip" := Str("1.1.1.1")]);
    assert HeaderAt(req, "x-forwarded-for") == Str(" ,8.8.8.8");
    assert " " + "" + "" + ",8.8.8.8" == " ,8.8.8.8";
    ForwardedForFirstHop(req, " ", "", "", ",8.8.8.8");
  }

  /** A single forwarded-for entry with white space around it yields the entry, trimmed. */
  lemma SingleForwardedFor()
    ensures ClientIp(WithHeaders(map["x-forwarded-for" := Str(" 1.2.3.4 ")])) == Normal(Str("1.2.3.4"))
  {
    var req := WithHeaders(map["x-forwarded-for" := Str(" 1.2.3.4 ")]);
    assert HeaderAt(req, "x-forwarded-for") == Str(" 1.2.3.4 ");
    assert " " + "1.2.3.4" + " " + "" == " 1.2.3.4 ";
    ForwardedForFirstHop(req, " ", "1.2.3.4", " ", "");
  }

  /** A numeric x-forwarded-for header makes `split` throw. */
  lemma NumericForwardedForThrows()
    ensures ClientIp(WithHeaders(map["x-forwarded-for" := Num(1.0)])).Throw?
  {
    LowerOfLowerCase("x-forwarded-for");
  }

  /** A server error with the given captured body and nothing else to go on. */
  function ErrorFor(status: int, body: Value, json: Json): Value
  {
    ErrorMessage(WithHeaders(map[]), Response(status, Undefined), body, json)
  }

  /** An object body with both `message` and `error`: `message` wins. */
  lemma MessageBeatsErrorInBody(json: Json)
    ensures ErrorFor(500, Obj(map["message" := Str("m"), "error" := Str("e")]), json) == Str("m")
  {
  }

  /** An object body with only `error`. */
  lemma ErrorFieldInBody(json: Json)
    ensures ErrorFor(500, Obj(map["error" := Str("e")]), json) == Str("e")
  {
    var body := Obj(map["error" := Str("e")]);
    assert ErrorFields(body)[0] == Undefined;
    FirstTruthyPicksLeast(ErrorFields(body), Str(json.stringify(body)), 1);
  }

  /** Status 200 and status 600 never carry an error message. */
  lemma SuccessAndOutOfRangeStatus(body: Value, json: Json)
    ensures ErrorFor(200, body, json) == Undefined
    ensures ErrorFor(600, body, json) == Undefined
  {
  }

  /** A JSON string body `{"foo":"bar"}` is reported as the original text. */
  lemma UnrecognisedJsonBody(json: Json)
    requires json.parse("{\"foo\":\"bar\"}") == Some(Obj(map["foo" := Str("bar")]))
    ensures ErrorFor(404, Str("{\"foo\":\"bar\"}"), json) == Str("{\"foo\":\"bar\"}")
  {
    FirstTruthyAllFalsy(ErrorFields(Obj(map["foo" := Str("bar")])), Str("{\"foo\":\"bar\"}"));
  }

  /** The text `null` parses to `null`; reading `.message` of it throws and the raw text is reported. */
  lemma NullJsonBody(json: Json)
    requires json.parse("null") == Some(Null)
    ensures ErrorFor(500, Str("null"), json) == Str("null")
  {
  }

  /** GET /users/42 with a host header and no address source. */
  predicate IsUsersRequest(req: Request)
  {
    && req.httpMethod == Str("GET")
    && req.originalUrl == Str("/users/42")
    && req.headers == Obj(map["host" := Str("api.example.com")])
    && req.ip == Undefined && req.socket == Undefined && req.connection == Undefined
    && req.error == Undefined
  }

  /** `{"error":"not found"}` captured either as the object or as its JSON text. */
  predicate NotFoundBody(body: Value, json: Json)
  {
    || body == Obj(map["error" := Str("not found")])
    || (body == Str("{\"error\":\"not found\"}")
        && json.parse("{\"error\":\"not found\"}") == Some(Obj(map["error" := Str("not found")])))
  }

  lemma NotFoundMessage(req: Request, json: Json, body: Value)
    requires IsUsersRequest(req) && NotFoundBody(body, json)
    ensures ErrorMessage(req, Response(404, Undefined), body, json) == Str("not found")
  {
    var fields := Obj(map["error" := Str("not found")]);
    assert ErrorFields(fields)[0] == Undefined;
    FirstTruthyPicksLeast(ErrorFields(fields), Str(json.stringify(fields)), 1);
    FirstTruthyPicksLeast(ErrorFields(fields), body, 1);
  }

  /** GET /users/42 has no forwarding header and no address source: no client IP. */
  lemma UsersRequestIp(req: Request)
    requires IsUsersRequest(req)
    ensures ClientIp(req) == Normal(Undefined)
  {
    assert HeaderAt(req, "x-forwarded-for") == Undefined;
    LowerOfLowerCase("x-forwarded-for");
    assert HeaderAt(req, "x-real-ip") == Undefined;
    LowerOfLowerCase("x-real-ip");
    NoIpSource(req);
  }

  /** The host header of GET /users/42 is found under its own name. */
  lemma UsersRequestHost(req: Request)
    requires IsUsersRequest(req)
    ensures Header(req, "host") == Str("api.example.com")
  {
    assert HeaderAt(req, "host") == Str("api.example.com");
    LowerOfLowerCase("host");
  }

  /**
   * The record of GET /users/42 with host api.example.com, answered 404
   * with whatever error message the response gives.
   */
  lemma UsersRecord(req: Request, json: Json, elapsedNs: int, timestamp: string, body: Value, message: Value)
    requires IsUsersRequest(req)
    requires ErrorMessage(req, Response(404, Undefined), body, json) == message
    ensures var r := Record(req, Response(404, Undefined), body, elapsedNs, timestamp, json);
            && r.Normal?
            && r.value.httpMethod == Str("GET")
            && r.value.path == Str("/users/42")
            && r.value.status == 404
            && r.value.host == Str("api.example.com")
            && r.value.errorMessage == message
  {
    UsersRequestIp(req);
    UsersRequestHost(req);
    RecordFields(req, Response(404, Undefined), body, elapsedNs, timestamp, json);
  }

  /**
   * GET /users/42 with host api.example.com answered 404 with
   * `{"error":"not found"}` gives method GET, that path, status 404, that
   * host, and the error message "not found".
   */
  lemma NotFoundRecord(req: Request, json: Json, elapsedNs: int, timestamp: string, body: Value)
    requires IsUsersRequest(req) && NotFoundBody(body, json)
    ensures var r := Record(req, Response(404, Undefined), body, elapsedNs, timestamp, json);
            && r.Normal?
            && r.value.httpMethod == Str("GET")
            && r.value.path == Str("/users/42")
            && r.value.status == 404
            && r.value.host == Str("api.example.com")
            && r.value.errorMessage == Str("not found")
  {
    NotFoundMessage(req, json, body);
    UsersRecord(req, json, elapsedNs, timestamp, body, Str("not found"));
  }
}
