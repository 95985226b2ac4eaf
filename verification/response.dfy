/** The error value carried by every error envelope (internal/model/response.go). */
module Response {
  import opened Wrappers

  /** Go's `type ErrorType string`. */
  type ErrorType = string

  const ErrorNone: ErrorType := ""
  const ErrorTimeout: ErrorType := "timeout"
  const ErrorCanceled: ErrorType := "canceled"
  const ErrorExec: ErrorType := "execution"
  const ErrorBadData: ErrorType := "bad_data"
  const ErrorInternal: ErrorType := "internal"
  const ErrorUnavailable: ErrorType := "unavailable"
  const ErrorNotFound: ErrorType := "not_found"
  const ErrorNotImplemented: ErrorType := "not_implemented"
  const ErrorUnauthorized: ErrorType := "unauthorized"
  const ErrorForbidden: ErrorType := "forbidden"
  const ErrorConflict: ErrorType := "conflict"

  /** The twelve classifications in declaration order. */
  const AllErrorTypes: seq<ErrorType> := [
    ErrorNone, ErrorTimeout, ErrorCanceled, ErrorExec, ErrorBadData, ErrorInternal,
    ErrorUnavailable, ErrorNotFound, ErrorNotImplemented, ErrorUnauthorized,
    ErrorForbidden, ErrorConflict]

  /** A non-nil Go `error` interface value. Either an error whose `Error()` text
      is known (such as one built by `fmt.Errorf`), or a `*ApiError` (possibly a
      nil pointer) stored in the interface. A nil interface is `None` in an
      `Option<GoError>`. */
  datatype GoError = TextError(text: string) | ApiErrorValue(ptr: ApiErrorPtr)

  /** Go's `ApiError` struct: `Typ` and `Err` (`None` is a nil `Err`). */
  datatype ApiError = ApiError(typ: ErrorType, err: Option<GoError>)

  /** A `*ApiError`, which may be nil. */
  type ApiErrorPtr = Option<ApiError>

  /** `Error()` of an arbitrary error interface value. */
  function ErrorText(e: GoError): string
    decreases e, 1
  {
    match e
    case TextError(text) => text
    case ApiErrorValue(p) => Error(p)
  }

  /** `(*ApiError).Type`: dereferences the receiver, so a nil receiver panics.
      Together with `ToError()` it gives back the whole receiver. */
  function Type(a: ApiErrorPtr): (t: ErrorType)
    requires a.Some?
    ensures a == Some(ApiError(t, ToError(a)))
  {
    a.value.typ
  }

  /** `(*ApiError).ToError`: the stored `Err` for a non-nil receiver. A nil
      receiver is returned as itself, which makes a NON-nil error interface
      holding a nil `*ApiError`. The result is a nil error exactly when a
      non-nil receiver has no `Err`, and its text is always `Error()`. */
  function ToError(a: ApiErrorPtr): (e: Option<GoError>)
    ensures e.None? <==> a.Some? && a.value.err.None?
    ensures e.Some? ==> ErrorText(e.value) == Error(a)
  {
    match a
    case Some(x) => x.err
    case None => Some(ApiErrorValue(a))
  }

  /** `(*ApiError).Error`: "" for a nil receiver or a nil `Err`, otherwise the
      text of `Err`. A non-empty text always comes from a stored `Err`. */
  function Error(a: ApiErrorPtr): (s: string)
    ensures s != "" ==> a.Some? && a.value.err.Some? && s == ErrorText(a.value.err.value)
    decreases a, 0
  {
    if a.None? || a.value.err.None? then "" else ErrorText(a.value.err.value)
  }

  /** `(*ApiError).IsNil`: a nil receiver or a nil `Err`. It holds exactly when
      there is no `Err` to report, and then `Error()` is "". */
  predicate IsNil(a: ApiErrorPtr): (b: bool)
    ensures b <==> (a.None? || ToError(a) == None)
    ensures b ==> Error(a) == ""
  {
    a.None? || a.value.err.None?
  }

  /** The constructors: each returns a non-nil `*ApiError` whose accessors
      read back its own classification and the given `Err`. */
  function BadRequest(err: Option<GoError>): (a: ApiErrorPtr)
    ensures a.Some? && Type(a) == ErrorBadData && ToError(a) == err
  {
    Some(ApiError(ErrorBadData, err))
  }

  function TimeOut(err: Option<GoError>): (a: ApiErrorPtr)
    ensures a.Some? && Type(a) == ErrorTimeout && ToError(a) == err
  {
    Some(ApiError(ErrorTimeout, err))
  }

  /** `BadRequestStr(s)` wraps `fmt.Errorf(s)`. The format verbs of `s` are not
      interpreted: the model takes `s` as the message text. */
  function BadRequestStr(s: string): (a: ApiErrorPtr)
    ensures a.Some? && Type(a) == ErrorBadData && ToError(a) == Some(TextError(s))
    ensures Error(a) == s && !IsNil(a)
  {
    Some(ApiError(ErrorBadData, Some(TextError(s))))
  }

  function InternalError(err: Option<GoError>): (a: ApiErrorPtr)
    ensures a.Some? && Type(a) == ErrorInternal && ToError(a) == err
  {
    Some(ApiError(ErrorInternal, err))
  }

  function NotFoundError(err: Option<GoError>): (a: ApiErrorPtr)
    ensures a.Some? && Type(a) == ErrorNotFound && ToError(a) == err
  {
    Some(ApiError(ErrorNotFound, err))
  }

  function UnauthorizedError(err: Option<GoError>): (a: ApiErrorPtr)
    ensures a.Some? && Type(a) == ErrorUnauthorized && ToError(a) == err
  {
    Some(ApiError(ErrorUnauthorized, err))
  }

  function UnavailableError(err: Option<GoError>): (a: ApiErrorPtr)
    ensures a.Some? && Type(a) == ErrorUnavailable && ToError(a) == err
  {
    Some(ApiError(ErrorUnavailable, err))
  }

  function ForbiddenError(err: Option<GoError>): (a: ApiErrorPtr)
    ensures a.Some? && Type(a) == ErrorForbidden && ToError(a) == err
  {
    Some(ApiError(ErrorForbidden, err))
  }

  /** On a non-nil receiver the accessors return the stored fields unchanged,
      and `Error()` is the text of the stored `Err`, or "" when there is none. */
  lemma AccessorsReadFields(typ: ErrorType, err: Option<GoError>)
    ensures Type(Some(ApiError(typ, err))) == typ
    ensures ToError(Some(ApiError(typ, err))) == err
    ensures Error(Some(ApiError(typ, err))) == (if err.None? then "" else ErrorText(err.value))
  {
  }

  /** The converse fails: a non-nil `Err` whose text is empty gives an empty
      `Error()` although `IsNil()` is false. */
  lemma EmptyErrorDoesNotImplyNil()
    ensures var a := BadRequestStr(""); !IsNil(a) && Error(a) == ""
  {
  }

  /** `ToError()` on a nil receiver is a non-nil error, yet its text is "". */
  lemma NilReceiverToErrorIsNotNil()
    ensures ToError(None) != None && ErrorText(ToError(None).value) == ""
  {
  }

  /** The classifications are twelve distinct strings and `ErrorNone` is "". */
  lemma ErrorTypesDistinct()
    ensures |AllErrorTypes| == 12 && ErrorNone == ""
    ensures forall i, j :: 0 <= i < j < |AllErrorTypes| ==> AllErrorTypes[i] != AllErrorTypes[j]
  {
  }
}
