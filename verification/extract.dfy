/**
 * The read-only extractors of `LogBuilder` (src/index.ts): header lookup,
 * client-IP selection and error-message extraction. Each is a chain of
 * guards and `||` over the dynamically typed request and response.
 */
module Extract {
  import opened Js
  import opened JsStrings

  /** The fields of the framework's request object that the extractors read. */
  datatype Request = Request(
    httpMethod: Value,
    originalUrl: Value,
    url: Value,
    headers: Value,
    ip: Value,
    socket: Value,
    connection: Value,
    error: Value)

  /** The fields of the framework's response object that are read. */
  datatype Response = Response(statusCode: int, locals: Value)

  /** The client- and server-error range of HTTP status codes, [400, 600). */
  predicate InErrorRange(status: int)
  {
    400 <= status < 600
  }

  // ---------------------------------------------------------------------
  // Header lookup
  // ---------------------------------------------------------------------

  /** `Array.isArray(v) ? v[0] : v`; `v[0]` of an empty array is undefined. */
  function FirstOfArray(v: Value): (r: Value)
    ensures !v.Arr? ==> r == v
    ensures v.Arr? && |v.items| > 0 ==> r == v.items[0]
    ensures v.Arr? && |v.items| == 0 ==> r == Undefined
  {
    if v.Arr? then (if |v.items| > 0 then v.items[0] else Undefined) else v
  }

  /** The value stored under `name` in the request's headers (missing headers read as `{}`). */
  function HeaderAt(req: Request, name: string): (r: Value)
    ensures !req.headers.Obj? ==> r == Undefined
    ensures req.headers.Obj? && name in req.headers.props ==> r == req.headers.props[name]
    ensures req.headers.Obj? && name !in req.headers.props ==> r == Undefined
  {
    Prop(Or(req.headers, Obj(map[])), name)
  }

  /**
   * extractHeader: the value under the exact name when it is truthy, else the
   * value under the lower-cased name; the first element of an array; and
   * `undefined` when neither lookup is truthy.
   */
  function Header(req: Request, name: string): (r: Value)
    ensures Truthy(HeaderAt(req, name)) ==> r == FirstOfArray(HeaderAt(req, name))
    ensures !Truthy(HeaderAt(req, name)) && Truthy(HeaderAt(req, Lower(name)))
            ==> r == FirstOfArray(HeaderAt(req, Lower(name)))
    ensures !Truthy(HeaderAt(req, name)) && !Truthy(HeaderAt(req, Lower(name))) ==> r == Undefined
  {
    var headerValue := Or(HeaderAt(req, name), HeaderAt(req, Lower(name)));
    if !Truthy(headerValue) then Undefined else FirstOfArray(headerValue)
  }

  /**
   * For a name that is already lower case (every name the builder asks for),
   * the lower-cased second lookup repeats the first: only the exact key counts.
   */
  lemma LowerCaseNameUsesExactKeyOnly(req: Request, name: string)
    requires Lower(name) == name
    ensures Header(req, name) == (if Truthy(HeaderAt(req, name)) then FirstOfArray(HeaderAt(req, name)) else Undefined)
  {
  }

  /** A header given under a mixed-case key is not found by its lower-case name. */
  lemma MixedCaseKeyIsNotFound(v: Value)
    requires Truthy(v)
    ensures Header(Request(Undefined, Undefined, Undefined, Obj(map["X-Forwarded-For" := v]),
                           Undefined, Undefined, Undefined, Undefined), "x-forwarded-for") == Undefined
  {
    assert "x-forwarded-for" != "X-Forwarded-For" by { assert "x-forwarded-for"[0] != "X-Forwarded-For"[0]; }
    LowerOfLowerCase("x-forwarded-for");
  }

  /** A mixed-case name does find a header stored under its lower-case key. */
  lemma MixedCaseNameFindsLowerCaseKey(v: Value)
    requires Truthy(v) && !v.Arr?
    ensures Header(Request(Undefined, Undefined, Undefined, Obj(map["x-real-ip" := v]),
                           Undefined, Undefined, Undefined, Undefined), "X-Real-IP") == v
  {
    assert Lower("X-Real-IP") == "x-real-ip";
    assert "X-Real-IP" != "x-real-ip" by { assert "X-Real-IP"[0] != "x-real-ip"[0]; }
  }

  // ---------------------------------------------------------------------
  // Client IP
  // ---------------------------------------------------------------------

  /** The fall-back chain after x-forwarded-for, in priority order. */
  function IpFallbacks(req: Request): (candidates: seq<Value>)
    ensures |candidates| == 4
    ensures candidates[0] == Header(req, "x-real-ip")
    ensures candidates[1] == req.ip
    ensures candidates[2] == Prop(req.socket, "remoteAddress")
    ensures candidates[3] == Prop(req.connection, "remoteAddress")
  {
    [ Header(req, "x-real-ip"),
      req.ip,
      Prop(req.socket, "remoteAddress"),
      Prop(req.connection, "remoteAddress") ]
  }

  /**
   * extractClientIp. A truthy x-forwarded-for decides alone: its text before
   * the first comma, trimmed (calling `split` on a value that is not a string
   * throws a TypeError that nothing catches). Otherwise the first truthy of
   * x-real-ip, req.ip, socket.remoteAddress, connection.remoteAddress, else
   * `undefined`.
   */
  function ClientIp(req: Request): (r: Completion<Value>)
    ensures r.Throw? <==> Truthy(Header(req, "x-forwarded-for")) && !Header(req, "x-forwarded-for").Str?
    ensures r.Normal? && Truthy(Header(req, "x-forwarded-for"))
            ==> r.value == Str(Trim(FirstSegment(Header(req, "x-forwarded-for").s)))
    ensures r.Normal? && !Truthy(Header(req, "x-forwarded-for"))
            ==> (r.value in IpFallbacks(req) && Truthy(r.value)) || r.value == Undefined
  {
    var forwardedFor := Header(req, "x-forwarded-for");
    if Truthy(forwardedFor) then
      if forwardedFor.Str? then Normal(Str(Trim(FirstSegment(forwardedFor.s))))
      else Throw(TypeError)
    else Normal(FirstTruthy(IpFallbacks(req), Undefined))
  }

  /**
   * With a truthy string x-forwarded-for the client IP is the first hop:
   * no comma, no surrounding white space, and it is what lies between the
   * white space before it and the first comma of the header.
   */
  lemma ForwardedForGivesFirstHop(req: Request)
    requires Header(req, "x-forwarded-for").Str? && Truthy(Header(req, "x-forwarded-for"))
    ensures ClientIp(req).Normal?
    ensures var s := Header(req, "x-forwarded-for").s;
            var ip := ClientIp(req).value.s;
            && ClientIp(req).value.Str?
            && ',' !in ip
            && (|ip| > 0 ==> !IsWhiteSpace(ip[0]) && !IsWhiteSpace(ip[|ip| - 1]))
            && exists lo, hi :: IsInnerSlice(FirstSegment(s), ip, lo, hi)
  {
    TrimmedSegmentHasNoComma(Header(req, "x-forwarded-for").s);
  }

  /**
   * Conversely, a non-empty header of the form `<ws>hop<ws>` followed by
   * nothing or by a comma and the rest, with no comma before it, gives
   * exactly `hop` (the empty string when the first entry is blank),
   * whatever x-real-ip and the other sources hold.
   */
  lemma ForwardedForFirstHop(req: Request, lead: string, hop: string, trail: string, tail: string)
    requires Header(req, "x-forwarded-for") == Str(lead + hop + trail + tail)
    requires lead + hop + trail + tail != ""
    requires ',' !in lead + hop + trail
    requires tail == "" || tail[0] == ','
    requires WhiteBetween(lead, 0, |lead|) && WhiteBetween(trail, 0, |trail|)
    requires |hop| > 0 ==> !IsWhiteSpace(hop[0]) && !IsWhiteSpace(hop[|hop| - 1])
    ensures ClientIp(req) == Normal(Str(hop))
  {
    var seg := lead + hop + trail;
    var s := seg + tail;
    assert s[..|seg|] == seg;
    FirstSegmentIs(s, |seg|);
    assert seg[|lead|..|lead| + |hop|] == hop;
    TrimIsTheInnerSlice(seg, |lead|, |lead| + |hop|);
  }

  /**
   * When x-forwarded-for is falsy the sources are tried strictly in order:
   * the k-th fallback wins when it is truthy and all earlier ones are falsy.
   */
  lemma FallbackOrder(req: Request, k: nat)
    requires !Truthy(Header(req, "x-forwarded-for"))
    requires k < 4 && Truthy(IpFallbacks(req)[k])
    requires forall j :: 0 <= j < k ==> !Truthy(IpFallbacks(req)[j])
    ensures ClientIp(req) == Normal(IpFallbacks(req)[k])
  {
    FirstTruthyPicksLeast(IpFallbacks(req), Undefined, k);
  }

  /** No truthy source at all: the client IP is `undefined`. */
  lemma NoIpSource(req: Request)
    requires !Truthy(Header(req, "x-forwarded-for"))
    requires forall j :: 0 <= j < 4 ==> !Truthy(IpFallbacks(req)[j])
    ensures ClientIp(req) == Normal(Undefined)
  {
    FirstTruthyAllFalsy(IpFallbacks(req), Undefined);
  }

  // ---------------------------------------------------------------------
  // Error message
  // ---------------------------------------------------------------------

  /** The fields tried on a body, in priority order: message, error, errorMessage. */
  function ErrorFields(v: Value): (fields: seq<Value>)
    ensures |fields| == 3
    ensures fields[0] == Prop(v, "message")
    ensures fields[1] == Prop(v, "error")
    ensures fields[2] == Prop(v, "errorMessage")
  {
    [Prop(v, "message"), Prop(v, "error"), Prop(v, "errorMessage")]
  }

  /**
   * The `res.locals.error` source. It returns (Some) only a non-empty string,
   * or a truthy `.message`, or a truthy `.error`; anything else falls through.
   */
  function LocalsMessage(res: Response): (r: Option<Value>)
    ensures r.Some? ==> Truthy(r.value)
    ensures r.Some? ==> Truthy(Prop(res.locals, "error"))
  {
    var error := Prop(res.locals, "error");
    if !Truthy(error) then None
    else if TypeOf(error) == StringType then Some(error)
    else if Truthy(Prop(error, "message")) then Some(Prop(error, "message"))
    else if Truthy(Prop(error, "error")) then Some(Prop(error, "error"))
    else None
  }

  /**
   * The captured-body source. A truthy string is parsed: a parse failure, or
   * a parsed `null` (whose `.message` read throws inside the same try), gives
   * the raw string back; otherwise the first truthy field, else the raw
   * string. A truthy object or array gives its first truthy field, else its
   * JSON dump. Any other truthy body (a number, `true`) falls through.
   */
  function BodyMessage(body: Value, json: Json): (r: Option<Value>)
    ensures r.Some? <==> Truthy(body) && (body.Str? || body.Arr? || body.Obj?)
    ensures r.Some? && body.Str? ==> Truthy(r.value)
    ensures r.Some? ==> r.value != Undefined
  {
    if !Truthy(body) then None
    else if TypeOf(body) == StringType then
      match json.parse(body.s)
      case None => Some(body)
      case Some(parsed) =>
        if Nullish(parsed) then Some(body)
        else Some(FirstTruthy(ErrorFields(parsed), body))
    else if TypeOf(body) == ObjectType then
      Some(FirstTruthy(ErrorFields(body), Str(json.stringify(body))))
    else None
  }

  /** The `req.error` source: a non-empty string as is, else a truthy `.message`. */
  function RequestErrorMessage(req: Request): (r: Option<Value>)
    ensures r.Some? ==> Truthy(r.value)
    ensures r.Some? ==> Truthy(req.error)
  {
    if !Truthy(req.error) then None
    else if TypeOf(req.error) == StringType then Some(req.error)
    else if Truthy(Prop(req.error, "message")) then Some(Prop(req.error, "message"))
    else None
  }

  /**
   * extractErrorMessage: `undefined` outside [400, 600); inside it the first
   * source that returns, in the order res.locals.error, the captured body,
   * req.error; `undefined` when none does.
   */
  function ErrorMessage(req: Request, res: Response, body: Value, json: Json): (r: Value)
    ensures !InErrorRange(res.statusCode) ==> r == Undefined
    ensures r == Undefined <==>
              || !InErrorRange(res.statusCode)
              || (LocalsMessage(res).None? && BodyMessage(body, json).None? && RequestErrorMessage(req).None?)
  {
    if res.statusCode < 400 || res.statusCode >= 600 then Undefined
    else
      match LocalsMessage(res)
      case Some(m) => m
      case None =>
        match BodyMessage(body, json)
        case Some(m) => m
        case None =>
          match RequestErrorMessage(req)
          case Some(m) => m
          case None => Undefined
  }

  /**
   * A non-empty string in res.locals.error is returned verbatim, whatever the
   * body and req.error hold (they are universally quantified here).
   */
  lemma LocalsStringWins(req: Request, res: Response, body: Value, json: Json, s: string)
    requires InErrorRange(res.statusCode)
    requires Prop(res.locals, "error") == Str(s) && s != ""
    ensures ErrorMessage(req, res, body, json) == Str(s)
  {
  }

  /**
   * A res.locals.error that is not a string: a truthy `.message` beats a
   * truthy `.error`, and then body and req.error are not consulted.
   */
  lemma LocalsMessageBeatsError(req: Request, res: Response, body: Value, json: Json)
    requires InErrorRange(res.statusCode)
    requires var e := Prop(res.locals, "error"); Truthy(e) && !e.Str?
    requires Truthy(Prop(Prop(res.locals, "error"), "message"))
    ensures ErrorMessage(req, res, body, json) == Prop(Prop(res.locals, "error"), "message")
  {
  }

  /** Without a truthy `.message`, a truthy `.error` of res.locals.error is returned. */
  lemma LocalsErrorField(req: Request, res: Response, body: Value, json: Json)
    requires InErrorRange(res.statusCode)
    requires var e := Prop(res.locals, "error"); Truthy(e) && !e.Str?
    requires !Truthy(Prop(Prop(res.locals, "error"), "message"))
    requires Truthy(Prop(Prop(res.locals, "error"), "error"))
    ensures ErrorMessage(req, res, body, json) == Prop(Prop(res.locals, "error"), "error")
  {
  }

  /**
   * A res.locals.error object with neither a truthy `.message` nor a truthy
   * `.error` does not return: the result is the one computed without it.
   */
  lemma SilentLocalsFallThrough(req: Request, res: Response, body: Value, json: Json)
    requires var e := Prop(res.locals, "error"); !e.Str?
    requires !Truthy(Prop(Prop(res.locals, "error"), "message"))
    requires !Truthy(Prop(Prop(res.locals, "error"), "error"))
    ensures ErrorMessage(req, res, body, json) == ErrorMessage(req, res.(locals := Undefined), body, json)
  {
  }

  /**
   * For a truthy object or array body (and a silent res.locals) the result is
   * its first truthy field among message, error, errorMessage, else its JSON
   * dump; req.error is not consulted.
   */
  lemma ObjectBodyPrecedence(req: Request, res: Response, body: Value, json: Json, k: nat)
    requires InErrorRange(res.statusCode) && LocalsMessage(res).None?
    requires body.Obj? || body.Arr?
    ensures k < 3 && Truthy(ErrorFields(body)[k]) && (forall j :: 0 <= j < k ==> !Truthy(ErrorFields(body)[j]))
            ==> ErrorMessage(req, res, body, json) == ErrorFields(body)[k]
    ensures (forall j :: 0 <= j < 3 ==> !Truthy(ErrorFields(body)[j]))
            ==> ErrorMessage(req, res, body, json) == Str(json.stringify(body))
  {
    if k < 3 && Truthy(ErrorFields(body)[k]) && (forall j :: 0 <= j < k ==> !Truthy(ErrorFields(body)[j])) {
      FirstTruthyPicksLeast(ErrorFields(body), Str(json.stringify(body)), k);
    }
    if forall j :: 0 <= j < 3 ==> !Truthy(ErrorFields(body)[j]) {
      FirstTruthyAllFalsy(ErrorFields(body), Str(json.stringify(body)));
    }
  }

  /** A non-empty string body that does not parse is returned unchanged. */
  lemma UnparsableStringBody(req: Request, res: Response, s: string, json: Json)
    requires InErrorRange(res.statusCode) && LocalsMessage(res).None?
    requires s != "" && json.parse(s).None?
    ensures ErrorMessage(req, res, Str(s), json) == Str(s)
  {
  }

  /**
   * For a non-empty string body that parses to a non-null value (and a
   * silent res.locals) the result is the parsed value's first truthy field
   * among message, error, errorMessage; req.error is not consulted.
   */
  lemma ParsedStringBodyPrecedence(req: Request, res: Response, s: string, json: Json, k: nat)
    requires InErrorRange(res.statusCode) && LocalsMessage(res).None?
    requires s != "" && json.parse(s).Some? && !Nullish(json.parse(s).value)
    requires k < 3 && Truthy(ErrorFields(json.parse(s).value)[k])
    requires forall j :: 0 <= j < k ==> !Truthy(ErrorFields(json.parse(s).value)[j])
    ensures ErrorMessage(req, res, Str(s), json) == ErrorFields(json.parse(s).value)[k]
  {
    FirstTruthyPicksLeast(ErrorFields(json.parse(s).value), Str(s), k);
  }

  /**
   * A string body that parses to something without a truthy message, error
   * or errorMessage (or to `null`) is returned as the original string, not
   * re-serialised.
   */
  lemma ParsedStringBodyWithoutFields(req: Request, res: Response, s: string, json: Json)
    requires InErrorRange(res.statusCode) && LocalsMessage(res).None?
    requires s != "" && json.parse(s).Some?
    requires var p := json.parse(s).value; p.Null? || forall j :: 0 <= j < 3 ==> !Truthy(ErrorFields(p)[j])
    ensures ErrorMessage(req, res, Str(s), json) == Str(s)
  {
    var p := json.parse(s).value;
    if !p.Null? {
      FirstTruthyAllFalsy(ErrorFields(p), Str(s));
    }
  }

  /**
   * A truthy body that is neither a string nor an object (a number, `true`)
   * is skipped: the result is the one computed with no body at all.
   */
  lemma PrimitiveBodySkipped(req: Request, res: Response, body: Value, json: Json)
    requires body.Bool? || body.Num? || body.NaN?
    ensures ErrorMessage(req, res, body, json) == ErrorMessage(req, res, Null, json)
  {
  }

  /**
   * req.error is reached only when res.locals and the body are silent: then
   * a non-empty string is returned as is, else a truthy `.message`, else
   * `undefined`.
   */
  lemma RequestErrorLast(req: Request, res: Response, body: Value, json: Json)
    requires InErrorRange(res.statusCode)
    ensures LocalsMessage(res).Some? || BodyMessage(body, json).Some?
            ==> ErrorMessage(req, res, body, json) == ErrorMessage(req.(error := Undefined), res, body, json)
    ensures LocalsMessage(res).None? && BodyMessage(body, json).None? ==>
              ErrorMessage(req, res, body, json) ==
                if req.error.Str? && req.error.s != "" then req.error
                else if !req.error.Str? && Truthy(Prop(req.error, "message")) then Prop(req.error, "message")
                else Undefined
  {
  }
}
