# LogBuilder: a Dafny model of the request-log builder

The Express middleware in `src/index.ts` wraps every request in a
`LogBuilder`. The builder remembers the last body passed to `res.json` or
`res.send`. When the response closes it assembles one log record with these
fields:

- method and path;
- status and duration;
- client IP;
- five request headers;
- an error message for 4xx/5xx responses.

This project models that builder and proves what each extractor returns.

- `js.dfy` (module `Js`) holds the fragment of JavaScript semantics the code
  leans on:
  - dynamically typed values;
  - truthiness, which is what `if (x)` and `x || y` test;
  - `typeof` and optional-chaining property reads;
  - a thrown `TypeError`, as a `Completion`.
  - `FirstTruthy` is an `a || b || … || fallback` chain. Its two lemmas pin
    down which operand wins.
- `strings.dfy` (module `JsStrings`) models `split(",")[0]`, `trim()` (the
  full ECMAScript white-space and line-terminator set) and `toLowerCase()`.
- `extract.dfy` (module `Extract`) holds `extractHeader`, `extractClientIp`
  and `extractErrorMessage` as pure functions over the request and response.
  Next to them are lemmas for the branches and for the priority order of
  the sources.
- `builder.dfy` (module `Builder`) models the following:
  - `build`, as the function `Record`;
  - the `LogBuilder` class, whose field `responseBody` is updated in place;
  - `HandleRequest`. It is what `observabilityRoutes` arranges for one
    request: a builder, a sequence of captured bodies and a final `build`.
- `scenarios.dfy` (module `Scenarios`) states, as lemmas, what the model
  gives on concrete requests.

One might expect header lookup to be case-insensitive, but `extractHeader`
lower-cases only the name it is asked for, never the keys of the header
map. Every name the builder passes is
already lower case, so in practice only the exact key is found. A header
stored under `X-Forwarded-For` is not found (`Extract.MixedCaseKeyIsNotFound`).
The model follows the code. This matters only for a header map built by
hand: Node's HTTP layer stores `req.headers` under lower-case names, so a
request received from the network never reaches the mixed-case miss.

The reading of `build` also depends on two points about exceptions:

- **Non-string `x-forwarded-for`.** When the header is truthy but not a
  string, `forwardedFor.split` throws a `TypeError`. Nothing catches it, so
  `build` itself throws (`Completion.Throw`).
- **Body text `null`.** A captured string body whose text is `null` parses
  to `null`. Reading `.message` from it throws inside the `try`, so the raw
  text is reported.

## Model

| member | source | states |
|---|---|---|
| Js.Truthy | src/index.ts:37-38 | JavaScript truthiness, as `if (x)` and the or-chains test it: `undefined`, `null`, `false`, `0`, NaN and the empty string are falsy, every other value (empty arrays and objects included) is truthy |
| Js.Nullish | src/index.ts:70-73 | `null` and `undefined`, the parse results on which reading `.message` throws inside the `try` |
| Js.TypeOf | src/index.ts:61 | `typeof` answers "string" exactly for strings and "object" exactly for null, arrays and objects |
| Js.Prop | src/index.ts:59-63 | an optional-chaining read yields an object's own property when it has one, and `undefined` on an object without it and on anything that is not an object |
| Js.Or | src/index.ts:37-38 | `a or b` (JavaScript's short-circuit or) is `a` when `a` is truthy and `b` otherwise |
| Js.FirstTruthy | src/index.ts:77-80 | an or-chain yields one of its operands or the fallback; it yields a truthy value unless it falls back |
| Js.FirstTruthyPicksLeast | src/index.ts:77-80 | the first truthy operand of an or-chain wins, whatever follows it |
| Js.FirstTruthyAllFalsy | src/index.ts:77-80 | an or-chain with no truthy operand yields its last operand |
| JsStrings.IsWhiteSpace | src/index.ts:96 | the characters `trim()` removes: ECMAScript WhiteSpace and LineTerminator code points |
| JsStrings.LeadingEnd | src/index.ts:96 | finds the end of the white-space run at the start of the string, stopping at the first non-white character |
| JsStrings.TrailingStart | src/index.ts:96 | finds the start of the white-space run at the end of the string, stopping after the last non-white character |
| JsStrings.Trim | src/index.ts:96 | `trim()` returns a slice of its input with only white space outside it, and that slice neither starts nor ends with white space |
| JsStrings.TrimIsTheInnerSlice | src/index.ts:96 | these properties determine `trim()`: any such slice is its result |
| JsStrings.TrimIdempotent | src/index.ts:96 | trimming a trimmed string changes nothing |
| JsStrings.FirstSegment | src/index.ts:96 | `split(",")[0]` is a comma-free prefix of the input that ends at the first comma or at the end of the input |
| JsStrings.FirstSegmentIs | src/index.ts:96 | those properties determine `split(",")[0]`: any such prefix is its result |
| JsStrings.TrimmedSegmentHasNoComma | src/index.ts:96 | the trimmed first segment of a comma-separated list holds no comma |
| JsStrings.LowerChar | src/index.ts:119 | `toLowerCase` maps `A`–`Z` to `a`–`z` and leaves every other character alone |
| JsStrings.Lower | src/index.ts:119 | `toLowerCase` preserves length and maps each character on its own, by `LowerChar` |
| JsStrings.LowerOfLowerCase | src/index.ts:119 | a name without upper-case letters is its own lower-case form |
| JsStrings.LowerIdempotent | src/index.ts:119 | lower-casing twice equals lower-casing once |
| Extract.InErrorRange | src/index.ts:54 | the status gate: 400 up to but excluding 600 |
| Extract.HeaderAt | src/index.ts:118-119 | a header read over `req.headers || {}`: the own property of an object header map, and `undefined` when the key is missing or the header map is not an object |
| Extract.FirstOfArray | src/index.ts:121 | a multi-valued header yields its first value, or `undefined` when empty; any other value is kept |
| Extract.Header | src/index.ts:114-122 | the value under the exact name when truthy, else under the lower-cased name when truthy, else `undefined`; arrays give their first element |
| Extract.LowerCaseNameUsesExactKeyOnly | src/index.ts:119 | for a lower-case name the fallback lookup adds nothing: only the exact key is consulted |
| Extract.MixedCaseKeyIsNotFound | src/index.ts:118-120 | a header stored under `X-Forwarded-For` is not found by `extractHeader(req, "x-forwarded-for")` |
| Extract.MixedCaseNameFindsLowerCaseKey | src/index.ts:119 | a mixed-case name does find a header stored under its lower-case key |
| Extract.IpFallbacks | src/index.ts:98-110 | the client-IP fallback chain is, in this order, the x-real-ip header, req.ip, socket.remoteAddress and connection.remoteAddress |
| Extract.ClientIp | src/index.ts:93-112 | throws exactly when x-forwarded-for is truthy and not a string; a truthy string gives its first comma-separated entry, trimmed; otherwise a truthy fallback source or `undefined` |
| Extract.ForwardedForGivesFirstHop | src/index.ts:94-97 | a truthy string x-forwarded-for gives a comma-free IP without surrounding white space, cut from the header's first entry |
| Extract.ForwardedForFirstHop | src/index.ts:94-97 | a non-empty header `<ws>hop<ws>`, alone or followed by `,rest`, gives exactly `hop`, whatever the other sources hold |
| Extract.FallbackOrder | src/index.ts:98-111 | without x-forwarded-for, x-real-ip, req.ip, socket.remoteAddress and connection.remoteAddress are tried strictly in that order |
| Extract.NoIpSource | src/index.ts:98-111 | with no truthy source the client IP is `undefined` |
| Extract.ErrorFields | src/index.ts:77-79 | a body is searched through its `message`, `error` and `errorMessage` properties, in this order |
| Extract.LocalsMessage | src/index.ts:59-64 | `res.locals.error` returns only a truthy value, and only when it is itself truthy |
| Extract.BodyMessage | src/index.ts:67-82 | the captured body returns exactly when it is a truthy string, object or array; a string body always returns something truthy; it never returns `undefined` |
| Extract.RequestErrorMessage | src/index.ts:85-88 | `req.error` returns only a truthy value, and only when it is itself truthy |
| Extract.ErrorMessage | src/index.ts:52-91 | `undefined` outside [400, 600); inside it, `undefined` exactly when none of the three sources returns |
| Extract.LocalsStringWins | src/index.ts:59-61 | a non-empty string in `res.locals.error` is the message, whatever the body and `req.error` hold |
| Extract.LocalsMessageBeatsError | src/index.ts:62 | a truthy `res.locals.error.message` is the message and beats `.error` |
| Extract.LocalsErrorField | src/index.ts:63 | without a truthy `.message`, a truthy `res.locals.error.error` is the message |
| Extract.SilentLocalsFallThrough | src/index.ts:59-64 | a `res.locals.error` with neither field does not decide the message: the result is the one computed without it |
| Extract.ObjectBodyPrecedence | src/index.ts:76-81 | an object or array body gives its first truthy field of message, error and errorMessage, else its JSON text; `req.error` is not consulted |
| Extract.UnparsableStringBody | src/index.ts:69-74 | a non-empty string body that fails to parse is reported as is |
| Extract.ParsedStringBodyPrecedence | src/index.ts:70-71 | a string body that parses to a non-null value gives the parsed value's first truthy field among message, error and errorMessage; `req.error` is not consulted |
| Extract.ParsedStringBodyWithoutFields | src/index.ts:70-71 | a string body that parses to `null`, or to a value without any of the three fields, is reported as the original text |
| Extract.PrimitiveBodySkipped | src/index.ts:67-82 | a number or boolean body is ignored, exactly as if no body was captured |
| Extract.RequestErrorLast | src/index.ts:84-90 | `req.error` matters only when the other two sources are silent; then a non-empty string, else a truthy `.message`, else `undefined` |
| Builder.Record | src/index.ts:31-50 | building throws exactly when client-IP extraction throws. Otherwise the record carries the response status, the elapsed time and the timestamp. Its method is always truthy: the request's method, else `UNKNOWN`. Its path is originalUrl, else url, else `/`. Client IP and error message are those of the extractors. |
| Builder.RecordHeaders | src/index.ts:43-47 | the five header fields of the record are the extracted `user-agent`, `origin`, `referer`, `host` and `content-type` |
| Builder.BodyIrrelevantOutsideErrorRange | src/index.ts:48 | outside [400, 600) the captured body has no effect on the record, and the record has no error message |
| Builder.LogBuilder.constructor | src/index.ts:19-25 | a new builder holds its start time and the body `null` |
| Builder.LogBuilder.SetResponseBody | src/index.ts:27-29 | the captured body is replaced by the new one, whatever it held |
| Builder.LogBuilder.Build | src/index.ts:31-50 | building yields the record for the body captured so far and the time elapsed since the builder was made |
| Builder.LastCaptured | src/index.ts:149-158 | the body that reaches the record is the last captured one, or `null` when nothing was captured |
| Builder.HandleRequest | src/index.ts:145-164 | one request, with its bodies captured in order, yields the record for the last captured body and the time from creation to close |
| Builder.SecondCaptureWins | src/index.ts:27-50 | on one builder, capturing a body and then another yields the record for the second body alone |
| Scenarios.MultiValuedHeader | src/index.ts:121 | a host header given as two values yields the first |
| Scenarios.EmptyArrayHeader | src/index.ts:120-121 | an empty array header is truthy but yields `undefined` |
| Scenarios.ForwardedForBeatsRealIp | src/index.ts:94-100 | `9.9.9.9, 8.8.8.8` in x-forwarded-for beats x-real-ip and yields `9.9.9.9` |
| Scenarios.BlankFirstHopStillDecides | src/index.ts:95-96 | ` ,8.8.8.8` yields the empty string; x-real-ip is not consulted |
| Scenarios.SingleForwardedFor | src/index.ts:95-96 | a single entry ` 1.2.3.4 ` in x-forwarded-for yields `1.2.3.4` |
| Scenarios.NumericForwardedForThrows | src/index.ts:96 | a numeric x-forwarded-for makes building the client IP throw |
| Scenarios.MessageBeatsErrorInBody | src/index.ts:77-78 | for a 500 whose body has both `message` and `error`, `message` is reported |
| Scenarios.ErrorFieldInBody | src/index.ts:78 | for a 500 whose body has only `error`, that is reported |
| Scenarios.SuccessAndOutOfRangeStatus | src/index.ts:54-56 | statuses 200 and 600 carry no error message |
| Scenarios.UnrecognisedJsonBody | src/index.ts:70-71 | the JSON text `{"foo":"bar"}` is reported verbatim |
| Scenarios.NullJsonBody | src/index.ts:69-74 | the JSON text `null` is reported verbatim |
| Scenarios.NotFoundMessage | src/index.ts:76-80 | a 404 with `{"error":"not found"}` reports `not found`, whether the body was captured as the object or as its JSON text |
| Scenarios.UsersRequestIp | src/index.ts:98-111 | a request without forwarding headers or address sources has no client IP |
| Scenarios.UsersRequestHost | src/index.ts:118-121 | the host header of GET /users/42 is found under its own name |
| Scenarios.UsersRecord | src/index.ts:31-50 | GET /users/42 answered 404 gives method GET, path /users/42, status 404, host api.example.com, no thrown error, and the response's error message |
| Scenarios.NotFoundRecord | src/index.ts:31-50 | GET /users/42 answered 404 with `{"error":"not found"}` gives method GET, path /users/42, status 404, host api.example.com and message `not found` |

## Left out

- Builder.Record: the duration is kept as the difference of two monotonic-clock readings. Dividing by 1 000 000 and formatting with `toFixed(2)` are floating point and text formatting, and are not modelled.
- Builder.LogBuilder.Build: both clock reads are parameters. `process.hrtime.bigint()` is `now` and `new Date().toISOString()` is `timestamp`.
- JsStrings.Lower: `toLowerCase` is modelled for ASCII letters only. Full Unicode case mapping is not modelled.
- `JSON.parse` and `JSON.stringify` are a parameter (`Js.Json`): the host's JSON library is not part of this model. Circular bodies, on which `stringify` throws, are not modelled.
- `saveLog` is not modelled. It covers the `fetch` POST, `process.env.SERVER_KEY` and `dotenv` loading, all network and environment I/O.
- The replacement of `res.json` and `res.send` and the `res.on('close')` registration are not modelled. They act as one loop over the captured bodies (`Builder.HandleRequest`). The original methods they forward to are framework code.
- Express's own `res.json` calls `res.send` with the JSON text, so the last capture may be the text rather than the object. The framework is not part of this model. `Scenarios.NotFoundMessage` covers both forms.
- `res.statusCode` is an integer. Comparisons of a non-numeric status are not modelled.
- JavaScript values are plain acyclic data. Prototype-chain properties, getters, functions, symbols, BigInt and the infinities are not modelled.
