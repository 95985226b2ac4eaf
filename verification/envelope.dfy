/** The response envelope and the two builders that write it
    (api/http_handler.go, `RespondError` and `writeHttpResponse`). */
module Envelope {
  import opened Wrappers
  import opened Model
  import opened Response
  import opened HttpWriter

  /** Go's `type status string`. */
  type Status = string

  const StatusSuccess: Status := "success"
  const StatusError: Status := "error"

  /** The HTTP status codes the builders use. */
  const StatusOK: int := 200
  const StatusBadRequest: int := 400
  const StatusNotFound: int := 404
  const StatusRequestTimeout: int := 408
  const StatusInternalServerError: int := 500

  const ContentType: string := "Content-Type"
  const ApplicationJson: string := "application/json"

  /** The `data interface{}` values the handlers pass: a text or a list of accounts. */
  datatype Payload = Message(text: string) | AccountList(accounts: seq<AccountInfo>)

  /** Go's `ApiResponse`. An `ErrorType` or `Error` of "" is left out of the
      JSON text (`omitempty`); the value keeps it. */
  datatype ApiResponse = ApiResponse(status: Status, data: Payload, errorType: ErrorType, error: string)

  /** The `switch` of `RespondError`: bad_data, internal, the empty type and
      timeout have their own code; every other type, not_found included, falls
      to the default 500. */
  function StatusCode(t: ErrorType): (code: int)
    ensures code == StatusBadRequest <==> t == ErrorBadData
    ensures code == StatusNotFound <==> t == ErrorNone
    ensures code == StatusRequestTimeout <==> t == ErrorTimeout
    ensures code == StatusInternalServerError <==> t != ErrorBadData && t != ErrorNone && t != ErrorTimeout
  {
    if t == ErrorBadData then StatusBadRequest
    else if t == ErrorInternal then StatusInternalServerError
    else if t == ErrorNone then StatusNotFound
    else if t == ErrorTimeout then StatusRequestTimeout
    else StatusInternalServerError
  }

  /** The code of each of the twelve classifications. */
  lemma StatusCodeTable()
    ensures StatusCode(ErrorBadData) == 400 && StatusCode(ErrorInternal) == 500
    ensures StatusCode(ErrorNone) == 404 && StatusCode(ErrorTimeout) == 408
    ensures StatusCode(ErrorNotFound) == 500
    ensures StatusCode(ErrorCanceled) == 500 && StatusCode(ErrorExec) == 500
    ensures StatusCode(ErrorUnavailable) == 500 && StatusCode(ErrorNotImplemented) == 500
    ensures StatusCode(ErrorUnauthorized) == 500 && StatusCode(ErrorForbidden) == 500
    ensures StatusCode(ErrorConflict) == 500
  {
  }

  /** The calls `RespondError` makes: the body first, then the content type,
      then the status code of the error's classification. The body carries
      status "error", the given data, the error's classification and text, and
      it is the only body written. */
  function ErrorEvents(apiErr: ApiErrorPtr, data: Payload): (ev: seq<Event<ApiResponse>>)
    requires apiErr.Some?
    ensures |ev| == 3
    ensures ev[0] == BodyWritten(ApiResponse(StatusError, data, apiErr.value.typ, Error(apiErr)))
    ensures ev[1] == HeaderSet(ContentType, ApplicationJson)
    ensures ev[|ev| - 1] == StatusWritten(StatusCode(apiErr.value.typ))
    ensures forall i :: 0 < i < |ev| ==> !ev[i].BodyWritten?
  {
    [ BodyWritten(ApiResponse(StatusError, data, Type(apiErr), Error(apiErr))),
      HeaderSet(ContentType, ApplicationJson),
      StatusWritten(StatusCode(Type(apiErr))) ]
  }

  /** The calls `writeHttpResponse` makes: content type, 200, then the body,
      which carries status "success", the data and no error fields, and is the
      only body written. */
  function SuccessEvents(data: Payload): (ev: seq<Event<ApiResponse>>)
    ensures |ev| == 3
    ensures ev[|ev| - 1] == BodyWritten(ApiResponse(StatusSuccess, data, ErrorNone, ""))
    ensures forall i :: 0 <= i < |ev| - 1 ==> !ev[i].BodyWritten?
  {
    [ HeaderSet(ContentType, ApplicationJson),
      StatusWritten(StatusOK),
      BodyWritten(ApiResponse(StatusSuccess, data, ErrorNone, "")) ]
  }

  /** `RespondError`. `apiErr.Type()` dereferences `apiErr`, so it must not be nil. */
  method RespondError(w: ResponseWriter<ApiResponse>, apiErr: ApiErrorPtr, data: Payload)
    requires apiErr.Some?
    modifies w
    ensures w.trace == old(w.trace) + ErrorEvents(apiErr, data)
  {
    var body := ApiResponse(StatusError, data, Type(apiErr), Error(apiErr));
    w.Write(body);
    var code := StatusCode(Type(apiErr));
    w.SetHeader(ContentType, ApplicationJson);
    w.WriteHeader(code);
  }

  /** `writeHttpResponse`. */
  method WriteHttpResponse(w: ResponseWriter<ApiResponse>, data: Payload)
    modifies w
    ensures w.trace == old(w.trace) + SuccessEvents(data)
  {
    var body := ApiResponse(StatusSuccess, data, ErrorNone, "");
    w.SetHeader(ContentType, ApplicationJson);
    w.WriteHeader(StatusOK);
    w.Write(body);
  }

  /** Because the body is written first, net/http sends an error response with
      status 200 and with none of the headers the handler sets (net/http adds
      its own, such as a sniffed content type), whatever the classification. */
  lemma ErrorResponseOnWire(apiErr: ApiErrorPtr, data: Payload)
    requires apiErr.Some?
    ensures CommittedStatus(ErrorEvents(apiErr, data)) == Some(StatusOK)
    ensures HeadersAtCommit(ErrorEvents(apiErr, data)) == map[]
  {
  }

  /** A success response goes out with status 200 and the JSON content type. */
  lemma SuccessResponseOnWire(data: Payload)
    ensures CommittedStatus(SuccessEvents(data)) == Some(StatusOK)
    ensures HeadersAtCommit(SuccessEvents(data)) == map[ContentType := ApplicationJson]
  {
    var ev := SuccessEvents(data);
    var m: map<string, string> := map[];
    assert HeadersAtCommit(ev) == HeadersBefore(ev[1..], m[ContentType := ApplicationJson]);
    assert ev[1..][0] == StatusWritten(StatusOK);
    assert m[ContentType := ApplicationJson] == map[ContentType := ApplicationJson];
  }

  /** How `WriteJSON` marshals: compact, or indented by four spaces with no prefix. */
  datatype Format = Compact | Indented(prefix: string, indent: string)

  /** The `pretty` test of `WriteJSON`: indentation for any value that is
      neither empty nor exactly "false". */
  function Marshaller(pretty: string): (f: Format)
    ensures f.Indented? <==> pretty != "" && pretty != "false"
    ensures f.Indented? ==> f == Indented("", "    ")
  {
    if pretty != "" && pretty != "false" then Indented("", "    ") else Compact
  }

  /** The test is on the literal text: "0", "no" and "False" all select indentation. */
  lemma MarshallerExamples()
    ensures Marshaller("1").Indented? && Marshaller("true").Indented?
    ensures Marshaller("0").Indented? && Marshaller("False").Indented? && Marshaller("no").Indented?
    ensures Marshaller("") == Compact && Marshaller("false") == Compact
  {
  }
}
