# BRNetworking in Dafny

A verified model of the core of BRNetworking, a small Swift helper for HTTP calls. A caller gives a URL, an HTTP
method, optional headers and an optional `Encodable` request body. BRNetworking encodes the body, builds a
`URLRequest`, sends it through a `URLSession`, classifies the response, and optionally decodes the response body.
Every failure comes back as one case of the `Problem` enum.

The model has one Dafny module per concern:

- `Base`: Swift's `Optional` and `Result`, and `Data` as a byte sequence.
- `Decimal`: how Swift prints an `Int` when it is interpolated into a string.
- `Foundation`: the Foundation values the library touches:
  - errors, as opaque records with a `localizedDescription`;
  - `HTTPURLResponse`, and a response of any other kind;
  - `URLRequest`, whose header fields are looked up case-insensitively.
- `HttpMethods`: `HTTPMethod`, its raw values and `requiresRequestBody`.
- `DataDirections`: `DataDirection` and `logPrefix`.
- `Problems`: the `Problem` enum, its `description`, and the entry points' catch clause.
- `Logging`: the `LogStyle` option set and the four `log*` functions. Each log function returns the lines it would
  print.
- `Requests`: `makeRequest`. It is an imperative method with the header loop, proved equal to a specification
  function. Lemmas about that function hold for every dictionary iteration order.
- `Responses`: `isResponseSuccess` and both `parseResponse` overloads.
- `Calls`: `getResponse` and the four public entry points.

The transport and the JSON coder are parameters. A `Session` gives, for each request, the response package or the
error that `data(for:)` or `upload(for:from:)` throws. The encoder and the decoder are functions that return bytes, a
value or an error. Every call returns an `Exchange` with three parts:

- the Swift `Result`;
- the trace of transport invocations, which is empty when nothing was sent;
- the lines that were logged.

The process-wide `logStyle` is the `style` of an explicit `LogContext`. Foundation's UTF-8 decoding of a payload and
its formatting of a header dictionary are functions held in that context.

Two choices follow the code:

- Header names are matched case-insensitively. This is what `value(forHTTPHeaderField:)` does, so the model keys
  fields by their case-folded name.
- Decoding an empty body is left to the decoder. The code does not single out empty bodies, so neither does the
  model.

## Model

| member | source | states |
|---|---|---|
| `HttpMethods.HTTPMethod.RawValue` | Sources/BRNetworking/HTTPMethod.swift:11-15 | the wire token is a non-empty upper-case word of at least three letters |
| `HttpMethods.HTTPMethod.RequiresRequestBody` | Sources/BRNetworking/HTTPMethod.swift:17-22 | a body is required exactly for the methods whose raw value is POST or PUT |
| `HttpMethods.RawValues` | Sources/BRNetworking/HTTPMethod.swift:12-15 | the raw values are exactly "GET", "POST", "PUT", "DELETE" |
| `HttpMethods.RawValueRoundTrip` | Sources/BRNetworking/HTTPMethod.swift:11-15 | `HTTPMethod(rawValue:)` recovers each method from its raw value, and only from it |
| `HttpMethods.RawValuesDistinct` | Sources/BRNetworking/HTTPMethod.swift:11-15 | distinct methods have distinct raw values |
| `HttpMethods.RequiresRequestBodyByMethod` | Sources/BRNetworking/HTTPMethod.swift:19-20 | GET and DELETE never require a body; POST and PUT always do |
| `DataDirections.DataDirection.LogPrefix` | Sources/BRNetworking/BRNetworking+JSONDirection.swift:14-19 | both prefixes end in a colon and a newline |
| `DataDirections.LogPrefixTexts` | Sources/BRNetworking/BRNetworking+JSONDirection.swift:16-17 | the prefixes are exactly "Incoming JSON:\n" and "Outgoing JSON:\n" |
| `DataDirections.LogPrefixDeterminesDirection` | Sources/BRNetworking/BRNetworking+JSONDirection.swift:16-17 | the two prefixes differ, so a dump's prefix tells its direction |
| `Decimal.IntToString` | Sources/BRNetworking/BRNetworking+Problem.swift:52 | an interpolated `Int` is non-empty and starts with '-' exactly when it is negative |
| `Decimal.IntToStringDenotes` | Sources/BRNetworking/BRNetworking+Problem.swift:52 | after the sign, the printed text is the decimal digits of the absolute value, without leading zeros |
| `Decimal.IntToStringInjective` | Sources/BRNetworking/BRNetworking+Problem.swift:52 | two integers that print the same are equal |
| `Problems.Problem.Description` | Sources/BRNetworking/BRNetworking+Problem.swift:50-60 | every one of the seven cases has a description, at least 20 characters long |
| `Problems.DescriptionTexts` | Sources/BRNetworking/BRNetworking+Problem.swift:52-58 | exact texts: "Bad response code: " plus the code (404 prints "404"); "Cannot decode response body with error: " and "Cannot encode request body with error: " plus the error's localized description; "Missing body for HTTP method " plus the raw value; "Response type is not HTTPURLResponse"; "Unclassified error: " plus the error's localized description, or "nil error"; "Invalid string passed as for URL: " plus the string |
| `Problems.DescriptionIgnoresPayloads` | Sources/BRNetworking/BRNetworking+Problem.swift:52-57 | response bytes, the request-body object, and an error's domain and code never change a description |
| `Problems.DescriptionDeterminesProblem` | Sources/BRNetworking/BRNetworking+Problem.swift:50-60 | equal descriptions mean the same case with equal printed fields: code, method, URL string, error text |
| `Problems.Catch` | Sources/BRNetworking/BRNetworking.swift:74 | a thrown `Problem` passes unchanged; any other error becomes `unknown` carrying that error |
| `Logging.LogStyle.Union` | Sources/BRNetworking/BRNetworking+Logging.swift:16 | the union of two option sets contains both, and everything either contained |
| `Logging.UnionExactly` | Sources/BRNetworking/BRNetworking+Logging.swift:16 | a union holds a flag exactly when one of its operands does, so it adds no other flag |
| `Logging.LogStyle.ArrayLiteral` | Sources/BRNetworking/BRNetworking+Logging.swift:36 | an option set written as an array literal contains every listed member |
| `Logging.ArrayLiteralExactly` | Sources/BRNetworking/BRNetworking+Logging.swift:36 | an array literal holds a flag exactly when one of its members does, so it holds no other flag |
| `Logging.LogStyle.None` | Sources/BRNetworking/BRNetworking+Logging.swift:34 | `none` contains none of the four flags |
| `Logging.LogStyle.Complete` | Sources/BRNetworking/BRNetworking+Logging.swift:36 | `complete` contains all four flags |
| `Logging.FlagBits` | Sources/BRNetworking/BRNetworking+Logging.swift:24-36 | the flags are 1, 2, 4 and 8 and pairwise disjoint; `none` is 0 and `complete` is 15 |
| `Logging.FlagsIndependent` | Sources/BRNetworking/BRNetworking+Logging.swift:24-31 | no flag contains another, so `callHeaders` does not turn on `callDescriptions` |
| `Logging.LogData` | Sources/BRNetworking/BRNetworking+Logging.swift:42-49 | at most one line, printed exactly when the direction's flag is set; it starts with the direction's prefix, followed by "No Data" for nil, the UTF-8 text, or "invalid JSON" |
| `Logging.LogFailure` | Sources/BRNetworking/BRNetworking+Logging.swift:52-55 | one line exactly when `callDescriptions` is set; it starts with "Call to " and ends with " FAILED - " and the status code |
| `Logging.LogSuccess` | Sources/BRNetworking/BRNetworking+Logging.swift:58-61 | one line exactly when `callDescriptions` is set; it starts with "Call to " and ends with " SUCCEEDED - " and the status code |
| `Logging.LogRequest` | Sources/BRNetworking/BRNetworking+Logging.swift:64-69 | nothing without `callDescriptions`, even with `callHeaders`; then the "Creating ..." line; a "Headers: " line only when both flags are set; at most two lines |
| `Logging.NoneLogsNothing` | Sources/BRNetworking/BRNetworking+Logging.swift:34 | with `none`, no log function prints anything |
| `Logging.CompleteLogsEverything` | Sources/BRNetworking/BRNetworking+Logging.swift:36 | with `complete`, payloads, failures and successes print one line each and a request prints two |
| `Foundation.FoldCase` | Sources/BRNetworking/BRNetworking.swift:235-238 | the key Foundation compares header names by keeps the name's length, has no upper-case ASCII letter, and leaves every other character as it was |
| `Requests.ApplyHeader` | Sources/BRNetworking/BRNetworking.swift:233-239 | one loop pass skips a missing key and otherwise leaves exactly the dictionary's value under the folded name; replacing when present and adding when absent never builds a comma-joined value |
| `Requests.ApplyHeaders` | Sources/BRNetworking/BRNetworking.swift:231-241 | the header loop never changes the URL or the method |
| `Requests.MakeRequest` | Sources/BRNetworking/BRNetworking.swift:222-244 | the loop's request and log lines equal `LoggedRequest` (`BuildRequest` for the same iteration order, logged as `logRequest`); the method is stamped as its raw value; nil headers leave no header fields |
| `Requests.ApplyHeadersKeys` | Sources/BRNetworking/BRNetworking.swift:231-241 | after the loop, the fields are the earlier ones plus the folded name of every key visited |
| `Requests.ApplyHeadersValues` | Sources/BRNetworking/BRNetworking.swift:231-241 | every field holds either its earlier value or the value of a dictionary key that folds to its name |
| `Requests.ApplyHeadersIdempotent` | Sources/BRNetworking/BRNetworking.swift:231-241 | merging the same dictionary again in the same order changes nothing, for every order and with colliding keys too |
| `Requests.LastWriterWins` | Sources/BRNetworking/BRNetworking.swift:232-239 | the last key in iteration order that names a header decides that header's value |
| `Requests.BuildRequestHeaders` | Sources/BRNetworking/BRNetworking.swift:222-244 | for every iteration order: the method and URL are stamped; nil headers leave no fields; each supplied key has exactly one field, holding the value of a key with that name; no two fields match case-insensitively |
| `Requests.DistinctKeysKeepTheirValues` | Sources/BRNetworking/BRNetworking.swift:231-241 | without case-insensitive collisions, each key's field holds its own value |
| `Requests.OrderIrrelevantWithoutCollisions` | Sources/BRNetworking/BRNetworking.swift:232 | without case-insensitive collisions, the request does not depend on the dictionary's iteration order |
| `Requests.CollidingKeysFollowOrder` | Sources/BRNetworking/BRNetworking.swift:232-239 | with both "X" and "x" supplied, the key iterated last is the one that is kept |
| `Requests.OverrideKeepsOneField` | Sources/BRNetworking/BRNetworking.swift:235-236 | merging {"X": "a"} onto a request holding {"x": "old"} leaves the single field "x" with value "a" |
| `Responses.IsResponseSuccess` | Sources/BRNetworking/BRNetworking.swift:247-249 | success exactly when the status code is in the 2xx class, that is, its quotient by 100 is 2 |
| `Responses.ParseResponse` | Sources/BRNetworking/BRNetworking.swift:170-180 | non-HTTP gives `invalidResponseType` and logs nothing; 2xx gives the exact status code; any other status gives `badResponse` with the code and the exact bytes; the lines logged on each path |
| `Responses.ParseDecodedResponse` | Sources/BRNetworking/BRNetworking.swift:183-200 | non-HTTP gives `invalidResponseType`; 2xx gives the decoded value, or `cannotDecodeResponse` with the decoder's error and the exact bytes; any other status gives `badResponse` with the code and the exact bytes, whatever the decoder |
| `Responses.OverloadsAgreeOnFailure` | Sources/BRNetworking/BRNetworking.swift:171-178 | outside a 2xx HTTP response both overloads give the same failure and log the same lines |
| `Responses.SuccessExactly` | Sources/BRNetworking/BRNetworking.swift:172-194 | each overload succeeds exactly on an HTTP 2xx response, and the decoding one also needs the body to decode |
| `Responses.ClassificationIgnoresLogging` | Sources/BRNetworking/BRNetworking.swift:170-200 | the classification does not depend on the log style or the text conversions |
| `Calls.GetResponse` | Sources/BRNetworking/BRNetworking.swift:203-219 | an encode failure throws `cannotEncodeBody` with the error and the body, and nothing is sent; otherwise exactly one upload of the built request with exactly the encoded bytes; its errors are rethrown as foreign errors |
| `Calls.CallWithBody` | Sources/BRNetworking/BRNetworking.swift:56-76 | an encode failure gives `cannotEncodeBody` with no transport call; otherwise exactly one upload of the encoded bytes; a session error becomes `unknown`; the response is classified and decoded; never `missingBody` |
| `Calls.CallWithoutResponseWithBody` | Sources/BRNetworking/BRNetworking.swift:117-134 | the same as `CallWithBody`, except that the response is classified to its status code only |
| `Calls.Call` | Sources/BRNetworking/BRNetworking.swift:147-164 | POST/PUT give `missingBody(method)` with no transport call and no log line; `missingBody` arises exactly then; otherwise one data task with the built request; a session error becomes `unknown`; the response is classified and decoded |
| `Calls.CallWithoutResponse` | Sources/BRNetworking/BRNetworking.swift:88-103 | the same as `Call`, except that the response is classified to its status code only |
| `Calls.LoggingNeverChangesCalls` | Sources/BRNetworking/BRNetworking.swift:56-164 | for all four entry points, the log style and the text conversions change neither the result nor the transport calls |
| `Calls.NotFoundScenario` | Sources/BRNetworking/BRNetworking.swift:147-164 | a GET answered with 404 fails with `badResponse(404, exact bytes)`, through both no-body entry points |

## Left out

- Sources/BRNetworking/BRNetworking+Settings.swift: each function there is a one-line setter on a Foundation coder or
  session configuration.
- Default sessions, encoder and decoder (`session ?? defaultUploadSession`, etc.): each entry point takes its session
  and coder explicitly. Choosing a default involves no decision of the library's own.
- The default session configuration's timeouts and cellular access are floating-point Foundation settings.
- `async`/`await`, suspension and concurrent calls: each call is modelled as one sequential evaluation.
- JSON encoding and decoding are opaque functions, and no encode/decode round trip is claimed. The codec is not
  part of this model.
- `URLSession.data(for:)` and `upload(for:from:)` are opaque functions. The session's response depends only on the
  request and the bytes, and the trace records each invocation.
- UTF-8 decoding of a payload, the formatting of a header dictionary, and `URL.absoluteString` are opaque. URLs are
  their absolute strings.
- `print` is modelled as returning the printed lines.
- Header field names are stored only in their case-folded form, and folding covers ASCII letters only. Which spelling
  Foundation keeps after `setValue` is not modelled.
- `Calls.Call`, `Calls.CallWithoutResponse`, `Calls.CallWithBody` and `Calls.CallWithoutResponseWithBody` take the
  dictionary's iteration order as a parameter. The lemmas on header coverage assume that the order lists each key
  once, as `headers.keys` does.
- `cannotEncodeBody(object: Any)` carries the request body at the entry point's own body type, rather than as
  type-erased `Any`.
- Status codes are unbounded integers rather than 64-bit `Int`. The library only compares them, so no overflow can
  occur.
- `Logging.LogFailure`: the contract states how the line starts and that it ends with the status code. The URL text
  in between is not stated.
- `Logging.LogSuccess`: the contract states how the line starts and that it ends with the status code. The URL text
  in between is not stated.
