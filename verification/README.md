# Account service request handling, modelled in Dafny

This project models the request-handling core of a small Go HTTP service that
serves a fixed, in-memory collection of bank accounts. It has four
read-only endpoints: `/` (a greeting), `/accountsByHealth?health=N`,
`/accountsByType?type=N` and `/getAll`. Every answer is wrapped in a JSON
envelope `ApiResponse{status, data, errorType, error}`.

The Dafny modules follow the Go packages:

- `Model` (`model.dfy`): the `AccountInfo` record with its 64-bit integer
  fields, and the `AccountHealth` and `AccountType` string constants.
- `Response` (`response.dfy`): the `ApiError` value, its accessors `Type`,
  `ToError`, `Error` and `IsNil`, the eight constructors and the twelve
  `ErrorType` constants. A `*ApiError` that may be nil is an
  `Option<ApiError>`. A Go `error` interface value is a `GoError`, and a nil
  interface is `None`.
- `Services` (`services.dfy`): the twelve seed accounts as a constant
  function, with lemmas about their contents.
- `GoStd` (`gostd.dfy`): the parts of Go that the handlers rely on.
  `strconv.Atoi` is given by a specification: an optional sign, then one or
  more ASCII digits, with the value in the 64-bit range. `strconv.Itoa` is
  its inverse. The conversion `AccountHealth(n)` of an integer to a string
  type is `RuneString`. `url.Values.Get` is `QueryGet`.
- `HttpWriter` (`http_writer.dfy`): a `ResponseWriter` class that records
  each `Header().Set`, `WriteHeader` and `Write` call in a `trace`. Two
  functions read what net/http sends for a trace, using its documented rule
  that a `Write` before any `WriteHeader` sends status 200:
  `CommittedStatus` gives the status line, `HeadersAtCommit` the headers.
- `Envelope` (`envelope.dfy`): `ApiResponse`, the status-code `switch`, the
  two envelope builders `RespondError` and `WriteHttpResponse` as methods on
  the writer, and the `pretty` test of `WriteJSON`.
- `Api` (`http_handler.dfy`): `NewAPIHandler`, the filter loop
  `SelectAccounts` (proved against the function `Filter`), and the four
  handlers. Each handler is a method on the writer. Its new trace is given
  by a pure reply function (`ByHealthReply`, `ByTypeReply`, `GetAllReply`,
  `HomeReply`).
- `HandlerProperties` (`handler_properties.dfy`): lemmas about what the
  handlers answer, for any account collection and for the seed collection.

Each handler starts with a `select` that races a timer against the
request's context. Here, which `select` case runs is an input
(`TimerFired`, `ContextDone` or `NoneReady`). When neither is ready, the
`default` case runs. The handlers take the account collection
(`services.Accounts`) as a parameter. The seed lemmas apply them to
`Services.Accounts()`.

The model follows the code in these places, where the names in the code
suggest something else:

- The filters compare against `AccountHealth(n)` / `AccountType(n)`. That is
  Go's integer-to-string conversion, which yields a one-rune string (U+FFFD
  for invalid code points). It is not a lookup of the n-th constant. Every
  constant is longer than one character, so with the seed data no filter
  ever matches (`SeedFiltersNeverMatch`).
- `not_found` has no case in the status `switch`, so it maps to 500. Code
  404 goes to the empty `ErrorNone`.
- `RespondError` writes the body before it sets the content type and calls
  `WriteHeader`. Under net/http's rule every response therefore goes out as
  200, and error responses go out without the JSON content type
  (`EveryReplyIsSent200`).
- The handlers build `&ApiError{Typ: ...}` without `Err`. So the envelope's
  `error` is always "". Texts such as "Invalid Health" travel in `data`.
- `NewAPIHandler` refuses only zero durations. Negative ones are accepted.
- `WriteJSON` indents for any `pretty` value other than "" and "false", so
  "0" and "False" also indent.

## Model

| member | source | states |
|---|---|---|
| `Model.HealthConstantsDistinct` | internal/model/model.go:15-24 | the eight health constants are pairwise distinct strings |
| `Model.TypeConstantsDistinct` | internal/model/model.go:26-31 | the four type constants are pairwise distinct strings |
| `Model.ConstantsLongerThanOneRune` | internal/model/model.go:16-30 | every health and type constant is longer than one character |
| `Response.Type` | internal/model/response.go:17-19 | `Type()` and `ToError()` together give back the whole non-nil receiver |
| `Response.ToError` | internal/model/response.go:21-26 | a nil error exactly for a non-nil receiver without `Err`; otherwise its text is `Error()` of the receiver |
| `Response.Error` | internal/model/response.go:28-33 | a non-empty text only comes from a non-nil receiver with a stored `Err`, and is that error's text |
| `Response.IsNil` | internal/model/response.go:35-37 | holds exactly for a nil receiver or a nil `Err` (`ToError()` is nil), and then `Error()` is "" |
| `Response.BadRequest` | internal/model/response.go:56-61 | a non-nil error reading back type bad_data and the given `Err` |
| `Response.TimeOut` | internal/model/response.go:63-68 | a non-nil error reading back type timeout and the given `Err` |
| `Response.BadRequestStr` | internal/model/response.go:70-75 | a non-nil error reading back type bad_data, an `Err` with text `s`, `Error() == s`, and `IsNil()` false |
| `Response.InternalError` | internal/model/response.go:77-82 | a non-nil error reading back type internal and the given `Err` |
| `Response.NotFoundError` | internal/model/response.go:84-89 | a non-nil error reading back type not_found and the given `Err` |
| `Response.UnauthorizedError` | internal/model/response.go:91-96 | a non-nil error reading back type unauthorized and the given `Err` |
| `Response.UnavailableError` | internal/model/response.go:98-103 | a non-nil error reading back type unavailable and the given `Err` |
| `Response.ForbiddenError` | internal/model/response.go:105-110 | a non-nil error reading back type forbidden and the given `Err` |
| `Response.AccessorsReadFields` | internal/model/response.go:17-33 | on a non-nil receiver `Type()` returns the stored `Typ` and `ToError()` the stored `Err`; `Error()` is the text of `Err`, or "" when `Err` is nil |
| `Response.NilReceiverToErrorIsNotNil` | internal/model/response.go:21-26 | `ToError()` on a nil receiver returns a non-nil error (a nil `*ApiError` in the interface) whose text is "" |
| `Response.EmptyErrorDoesNotImplyNil` | internal/model/response.go:28-37 | the converse fails: an `Err` with empty text gives `Error() == ""` while `IsNil()` is false |
| `Response.ErrorTypesDistinct` | internal/model/response.go:41-54 | the twelve `ErrorType` constants are distinct and `ErrorNone` is "" |
| `GoStd.QueryGet` | api/http_handler.go:161 | the first value given for the key, or "" when the key is absent or has no value |
| `GoStd.Atoi` | api/http_handler.go:162 | a parsed value lies in the 64-bit range and the text holds at least one digit |
| `GoStd.AtoiItoa` | api/http_handler.go:194 | parsing the decimal form of an integer gives it back when it is in the 64-bit range, and fails otherwise |
| `GoStd.AtoiExamples` | api/http_handler.go:161-166 | "", "abc", "+", " 1" and "1_000" fail to parse; "-12" and "+007" parse |
| `GoStd.RuneString` | api/http_handler.go:169 | the conversion of an integer to a string type yields exactly one rune: the integer itself if it is a Unicode scalar value, else U+FFFD |
| `GoStd.RuneStringIsNoConstant` | api/http_handler.go:201 | the converted string of any integer is none of the health or type constants |
| `Services.Accounts` | internal/services/services.go:5-105 | the collection assigned at start-up holds twelve records |
| `Services.SeedShape` | internal/services/services.go:8-105 | each seed record has balance 10000, holdings 5000, and a named type and health |
| `Services.SeedCrns` | internal/services/services.go:11-99 | the identifiers are positive and pairwise distinct; 14654758353 exceeds the 32-bit range |
| `Services.SeedTypeCount` | internal/services/services.go:14-102 | the count of seed records of any type: each type constant's count, 0 for any other string |
| `Services.SeedHealthCount` | internal/services/services.go:15-103 | the count of seed records of any health: each used constant's count, 0 for any other string |
| `Services.SeedTypeCounts` | internal/services/services.go:14-102 | SAVING 4, GL 2, CURRENT 1, OVERDRAFT 5 |
| `Services.SeedHealthCounts` | internal/services/services.go:15-103 | OK 6, WARN 2, SUB1 1, SUB3 1, OVERDUE30 1, DELINQUENT 1; SUB2 and OVERDUE90 unused |
| `HttpWriter.ResponseWriter.SetHeader` | api/http_handler.go:93 | appends one header set to the trace, changing nothing else |
| `HttpWriter.ResponseWriter.WriteHeader` | api/http_handler.go:94 | appends one status write to the trace |
| `HttpWriter.ResponseWriter.Write` | api/http_handler.go:75 | appends one body write to the trace |
| `HttpWriter.HeadersAtCommit` | api/http_handler.go:93-94 | only keys the trace sets go out with the status line; each key set before the commit goes out with the last value set for it; none go out when the first call is `WriteHeader` or `Write` |
| `HttpWriter.HeadersBeforeValues` | api/http_handler.go:93-94 | before the commit, a key not set keeps its earlier value and a key set ends with its last value |
| `HttpWriter.CommittedStatus` | api/http_handler.go:93-94 | no status line is sent exactly while the trace holds only header sets; otherwise the status is the code of the first `WriteHeader`, or 200 when a `Write` comes first |
| `Envelope.StatusCode` | api/http_handler.go:79-91 | 400 exactly for bad_data, 404 exactly for the empty type, 408 exactly for timeout, 500 for every other type |
| `Envelope.StatusCodeTable` | api/http_handler.go:80-90 | the code of each of the twelve classifications; not_found gets 500 |
| `Envelope.RespondError` | api/http_handler.go:62-95 | appends the body write (status "error", the data, the error's type and text), then the JSON content type, then `WriteHeader` with the type's code |
| `Envelope.WriteHttpResponse` | api/http_handler.go:97-114 | appends the JSON content type, `WriteHeader(200)`, then the body write with status "success" and the data |
| `Envelope.ErrorEvents` | api/http_handler.go:64-94 | the body comes first with status "error", the data, `Type()` and `Error()`, and is the only body write; then the JSON content type is set; the last call writes the type's code |
| `Envelope.SuccessEvents` | api/http_handler.go:99-112 | three calls, the last and only body write carrying status "success", the data and no error fields |
| `Envelope.ErrorResponseOnWire` | api/http_handler.go:75-94 | because the body comes first, an error response is sent with status 200 and without any header the handler set |
| `Envelope.SuccessResponseOnWire` | api/http_handler.go:108-111 | a success response is sent with status 200 and the JSON content type |
| `Envelope.Marshaller` | api/http_handler.go:137-142 | indentation (no prefix, four spaces) exactly when `pretty` is non-empty and not "false" |
| `Envelope.MarshallerExamples` | api/http_handler.go:138 | "1", "true", "0", "False" and "no" indent; "" and "false" do not |
| `Api.NewAPIHandler` | api/http_handler.go:54-60 | fails with "incorrect api options" exactly when either duration is 0, else keeps both durations unchanged |
| `Api.RouteOptionsAccepted` | api/http_handler.go:254-258 | the sixty-second durations the routes use are accepted |
| `Api.Filter` | api/http_handler.go:167-172 | never more records than the collection, every one kept by the selector |
| `Api.SelectAccounts` | api/http_handler.go:167-172 | the loop's result equals `Filter` of the collection |
| `Api.FilterIsKeptSubsequence` | api/http_handler.go:199-204 | the filter result is the collection restricted, in increasing order, to exactly the positions whose record is kept |
| `Api.KeptPositionsInRange` | api/http_handler.go:199-204 | the scan yields one position per kept record, each inside the collection |
| `Api.FilterAtKeptPositions` | api/http_handler.go:199-204 | the k-th record of the result is the record at the k-th kept position |
| `Api.KeptPositionsIncrease` | api/http_handler.go:199-204 | kept positions are strictly increasing, so the result keeps the collection's order |
| `Api.KeptPositionsExact` | api/http_handler.go:199-204 | a position is kept if and only if the selector keeps its record |
| `Api.FilterMembers` | api/http_handler.go:168-170 | a record is in the result exactly when it is in the collection and kept |
| `Api.FilterAppend` | api/http_handler.go:200-203 | filtering distributes over concatenation, so the order is preserved |
| `Api.Guarded` | api/http_handler.go:155-160 | the `default` work runs only when neither case is ready; a fired timer gives an error with code 408, a done context one with code 500 |
| `Api.FilterReply` | api/http_handler.go:161-178 | bad_data with the handler's text exactly when the number does not parse; otherwise a non-empty list or not_found "Account Not found" |
| `Api.ByHealthReply` | api/http_handler.go:152-182 | only timeout, internal, bad_data and not_found errors, each with a text; an answer is a non-empty list |
| `Api.ByTypeReply` | api/http_handler.go:184-214 | only timeout, internal, bad_data and not_found errors, each with a text; an answer is a non-empty list |
| `Api.GetAllReply` | api/http_handler.go:216-235 | only timeout, internal and not_found errors; an answer is the whole, non-empty collection |
| `Api.HomeReply` | api/http_handler.go:237-251 | only timeout and internal errors; an answer is the greeting |
| `Api.ReplyEvents` | api/http_handler.go:157-231 | an answer is delivered by `writeHttpResponse`'s calls; a failure by `RespondError`'s calls on `&ApiError{Typ: typ}`, whose body carries the type and an empty error text |
| `Api.APIHandler.AccByHealth` | api/http_handler.go:152-182 | appends the calls that deliver `ByHealthReply` |
| `Api.APIHandler.AccByType` | api/http_handler.go:184-214 | appends the calls that deliver `ByTypeReply` |
| `Api.APIHandler.GetAllAcc` | api/http_handler.go:216-235 | appends the calls that deliver `GetAllReply` |
| `Api.APIHandler.Home` | api/http_handler.go:237-251 | appends the calls that deliver `HomeReply` |
| `Api.APIHandler.Respond` | api/http_handler.go:148-150 | appends the calls of `writeHttpResponse` |
| `HandlerProperties.SelectCasesOverride` | api/http_handler.go:155-159 | a fired timer answers timeout "Request Timed Out", a done context internal "Internal Server Error", in all four handlers |
| `HandlerProperties.ByHealthReplySpec` | api/http_handler.go:160-179 | unparsable health: bad_data "Invalid Health"; else success exactly when some record's health equals the one-rune string, with exactly the filtered records; else not_found "Account Not found" |
| `HandlerProperties.ByTypeReplySpec` | api/http_handler.go:192-211 | the same for `type`, with "Invalid Type" |
| `HandlerProperties.AnswersOnlyMatch` | api/http_handler.go:173-176 | a listed answer is non-empty and holds only records of the collection with the requested field value |
| `HandlerProperties.GetAllReplySpec` | api/http_handler.go:224-232 | the whole collection when non-empty, else not_found "No Accounts Found" |
| `HandlerProperties.HomeReplySpec` | api/http_handler.go:245-248 | "Welcome to Home page" as success, whatever the query |
| `HandlerProperties.FailEnvelope` | api/http_handler.go:164 | a handler's error body has empty error text, its type, and the message as data; `WriteHeader` gets the type's code |
| `HandlerProperties.EveryReplyIsSent200` | api/http_handler.go:62-114 | every reply is sent with status 200; the JSON content type is sent exactly for successes |
| `HandlerProperties.InvalidHealthExample` | api/http_handler.go:161-165 | `health=abc` gives bad_data "Invalid Health" and `WriteHeader(400)` |
| `HandlerProperties.SeedFiltersNeverMatch` | api/http_handler.go:167-178 | with the seed data neither filter ever succeeds; a parsable value gives not_found and `WriteHeader(500)` |
| `HandlerProperties.SeedGetAll` | api/http_handler.go:225-228 | with the seed data `/getAll` returns all 12 records |

## Left out

- The `select` timers: `time.After`, `context.WithTimeout` and `cancel` are not modelled. Which case is ready is an input, so the durations in `APIHandler` have no effect in the model.
- JSON serialisation (jsoniter, `encoding/json`, `MarshalIndent`): envelopes are values, not bytes. `Marshaller` only says which format `WriteJSON` picks.
- The marshal-failure branches of `RespondError` and `writeHttpResponse`: they are not modelled, because the payloads here (strings and account records) always marshal.
- The write-failure branches (`log.Fatalf`) and the fatal branch of `HandleError`: they end the process. The model assumes every `Write` succeeds.
- `HandleError`, and the header and body writes of `WriteJSON`: no route calls them. Only the `pretty` test is modelled.
- `http.Error`, `Header()` beyond `Set`, and the way net/http chooses a content type when none is set before the first `Write`.
- `setupRoutes`, `SetupHTTPHandlers`, api/server.go and cmd/main.go: route registration, the listener, signal handling and shutdown are I/O and concurrency.
- Parsing the raw URL into query values: a request carries its parsed query map.
- Strings are sequences of Unicode characters, not UTF-8 bytes. Equality is the same either way for the strings compared here.
- `GoStd.Atoi`: specified by its accepted language, not by the library's implementation; its error values (`ErrSyntax`, `ErrRange`) are not distinguished.
- `Response.Type`: requires a non-nil `*ApiError`; the panic of `Type()` on a nil receiver is not modelled.
- `Envelope.RespondError`: requires a non-nil `*ApiError`, so the panic of `apiErr.Type()` on a nil pointer is not modelled; every call site passes `&ApiError{...}`.
- `HttpWriter.CommittedStatus`: every `WriteHeader` code is taken as final. net/http's 1xx informational responses, which do not fix the status, are not modelled; the handlers write none.
- `Response.BadRequestStr`: `fmt.Errorf(s)` is taken to produce the text `s`; format verbs in `s` are not interpreted.
