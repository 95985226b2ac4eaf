/** The request handlers of the account service (api/http_handler.go): the
    handler constructor, the account filter, and the four endpoints `/`,
    `/accountsByHealth`, `/accountsByType` and `/getAll`. */
module Api {
  import opened Wrappers
  import opened Model
  import opened Response
  import opened GoStd
  import opened HttpWriter
  import opened Envelope
  import opened Services

  /** Go's `time.Duration`, in nanoseconds. */
  type Duration = Int64

  const Second: Duration := 1_000_000_000

  datatype APIHandlerOptions = APIHandlerOptions(timeout: Duration)
  datatype BaseAPI = BaseAPI(contextTimeOut: Duration)

  /** `NewAPIHandler`: refuses a zero timeout or a zero context timeout, and
      otherwise keeps both durations as given. Negative durations pass. */
  function NewAPIHandler(opts: APIHandlerOptions, baseAPI: BaseAPI): (r: Result<APIHandler, string>)
    ensures r.Failure? <==> opts.timeout == 0 || baseAPI.contextTimeOut == 0
    ensures r.Failure? ==> r.error == "incorrect api options"
    ensures r.Success? ==> r.value.opts == opts && r.value.baseAPI == baseAPI
  {
    if opts.timeout == 0 || baseAPI.contextTimeOut == 0 then Failure("incorrect api options")
    else Success(APIHandler(APIHandlerOptions(opts.timeout), BaseAPI(baseAPI.contextTimeOut)))
  }

  /** The sixty-second durations the routes are set up with are accepted. */
  lemma RouteOptionsAccepted()
    ensures NewAPIHandler(APIHandlerOptions(60 * Second), BaseAPI(60 * Second)).Success?
  {
  }

  // ---------------------------------------------------------------------------
  // Filtering

  /** Which field a filter compares, and against which string. */
  datatype Selector = ByHealth(health: AccountHealth) | ByType(accType: AccountType)

  predicate Keeps(sel: Selector, a: AccountInfo)
  {
    match sel
    case ByHealth(h) => a.accHealth == h
    case ByType(t) => a.accType == t
  }

  /** The records of `s` that `sel` keeps, in the order of `s`: never more
      records than `s` has, and every one of them kept. */
  function Filter(s: seq<AccountInfo>, sel: Selector): (r: seq<AccountInfo>)
    ensures |r| <= |s|
    ensures forall i :: 0 <= i < |r| ==> Keeps(sel, r[i])
    decreases |s|
  {
    if s == [] then []
    else
      var kept := Filter(s[..|s| - 1], sel);
      if Keeps(sel, s[|s| - 1]) then kept + [s[|s| - 1]] else kept
  }

  /** The positions of `s` that `sel` keeps, in increasing order. */
  function KeptPositions(s: seq<AccountInfo>, sel: Selector): seq<nat>
    decreases |s|
  {
    if s == [] then []
    else KeptPositions(s[..|s| - 1], sel) + (if Keeps(sel, s[|s| - 1]) then [|s| - 1] else [])
  }

  /** The scan of `AccByHealth` and `AccByType`: one pass over `accounts`,
      appending each record the selector keeps. */
  method SelectAccounts(accounts: seq<AccountInfo>, sel: Selector) returns (filtered: seq<AccountInfo>)
    ensures filtered == Filter(accounts, sel)
  {
    filtered := [];
    for i := 0 to |accounts|
      invariant filtered == Filter(accounts[..i], sel)
    {
      assert accounts[..i + 1][..i] == accounts[..i];
      if Keeps(sel, accounts[i]) {
        filtered := filtered + [accounts[i]];
      }
    }
    assert accounts[..|accounts|] == accounts;
  }

  /** The filter result is exactly the subsequence of `s` at the kept
      positions: position `i` is taken if and only if `sel` keeps `s[i]`, and
      the taken positions appear in increasing order. */
  lemma FilterIsKeptSubsequence(s: seq<AccountInfo>, sel: Selector)
    ensures var p := KeptPositions(s, sel);
      && |Filter(s, sel)| == |p|
      && (forall k :: 0 <= k < |p| ==> p[k] < |s| && Filter(s, sel)[k] == s[p[k]])
      && (forall k, l :: 0 <= k < l < |p| ==> p[k] < p[l])
      && (forall i :: 0 <= i < |s| ==> (i in p <==> Keeps(sel, s[i])))
  {
    KeptPositionsInRange(s, sel);
    FilterAtKeptPositions(s, sel);
    KeptPositionsIncrease(s, sel);
    KeptPositionsExact(s, sel);
  }

  lemma {:induction false} KeptPositionsInRange(s: seq<AccountInfo>, sel: Selector)
    ensures |Filter(s, sel)| == |KeptPositions(s, sel)|
    ensures forall k :: 0 <= k < |KeptPositions(s, sel)| ==> KeptPositions(s, sel)[k] < |s|
    decreases |s|
  {
    if s != [] {
      KeptPositionsInRange(s[..|s| - 1], sel);
    }
  }

  lemma {:induction false} FilterAtKeptPositions(s: seq<AccountInfo>, sel: Selector)
    requires |Filter(s, sel)| == |KeptPositions(s, sel)|
    requires forall k :: 0 <= k < |KeptPositions(s, sel)| ==> KeptPositions(s, sel)[k] < |s|
    ensures forall k :: 0 <= k < |KeptPositions(s, sel)| ==> Filter(s, sel)[k] == s[KeptPositions(s, sel)[k]]
    decreases |s|
  {
    if s != [] {
      var n := |s| - 1;
      var init := s[..n];
      KeptPositionsInRange(init, sel);
      FilterAtKeptPositions(init, sel);
      var p0 := KeptPositions(init, sel);
      assert forall k :: 0 <= k < |p0| ==> s[p0[k]] == init[p0[k]];
    }
  }

  lemma {:induction false} KeptPositionsIncrease(s: seq<AccountInfo>, sel: Selector)
    ensures forall k :: 0 <= k < |KeptPositions(s, sel)| ==> KeptPositions(s, sel)[k] < |s|
    ensures forall k, l :: 0 <= k < l < |KeptPositions(s, sel)| ==>
      KeptPositions(s, sel)[k] < KeptPositions(s, sel)[l]
    decreases |s|
  {
    if s != [] {
      KeptPositionsIncrease(s[..|s| - 1], sel);
    }
  }

  lemma {:induction false} KeptPositionsExact(s: seq<AccountInfo>, sel: Selector)
    ensures forall k :: 0 <= k < |KeptPositions(s, sel)| ==> KeptPositions(s, sel)[k] < |s|
    ensures forall i :: 0 <= i < |s| ==> (i in KeptPositions(s, sel) <==> Keeps(sel, s[i]))
    decreases |s|
  {
    if s != [] {
      var n := |s| - 1;
      var init := s[..n];
      KeptPositionsExact(init, sel);
      assert forall i :: 0 <= i < n ==> s[i] == init[i];
    }
  }

  /** A record is in the filter result exactly when it is in `s` and kept. */
  lemma FilterMembers(s: seq<AccountInfo>, sel: Selector)
    ensures forall a :: a in Filter(s, sel) <==> a in s && Keeps(sel, a)
  {
    FilterIsKeptSubsequence(s, sel);
    var p := KeptPositions(s, sel);
    var f := Filter(s, sel);
    forall a | a in s && Keeps(sel, a)
      ensures a in f
    {
      var i :| 0 <= i < |s| && s[i] == a;
      var k :| 0 <= k < |p| && p[k] == i;
      assert f[k] == a;
    }
  }

  /** Filtering distributes over concatenation, which is what makes it order
      preserving. */
  lemma {:induction false} FilterAppend(s: seq<AccountInfo>, t: seq<AccountInfo>, sel: Selector)
    ensures Filter(s + t, sel) == Filter(s, sel) + Filter(t, sel)
    decreases |t|
  {
    if t == [] {
      assert s + t == s;
    } else {
      var t0 := t[..|t| - 1];
      FilterAppend(s, t0, sel);
      assert (s + t)[..|s + t| - 1] == s + t0;
      assert (s + t)[|s + t| - 1] == t[|t| - 1];
      assert t[..|t| - 1] == t0;
      var x := [t[|t| - 1]];
      assert (Filter(s, sel) + Filter(t0, sel)) + x == Filter(s, sel) + (Filter(t0, sel) + x);
    }
  }

  // ---------------------------------------------------------------------------
  // Requests, replies and the four handlers

  /** Which `select` case a handler takes. Timers and contexts are not
      modelled: whether the timer has fired or the request's context is done
      when the handler starts is an input. When neither is ready the
      `default` case runs. */
  datatype SelectCase = TimerFired | ContextDone | NoneReady

  /** What a handler reads of its request: the parsed query and the
      `select` case. */
  datatype Request = Request(query: map<string, seq<string>>, ready: SelectCase)

  /** What a handler answers: a success envelope through `writeHttpResponse`,
      or an error envelope through `RespondError` with `&ApiError{Typ: typ}`. */
  datatype Reply = Answer(data: Payload) | Fail(typ: ErrorType, data: Payload)

  const TimedOutText: string := "Request Timed Out"
  const InternalText: string := "Internal Server Error"
  const InvalidHealthText: string := "Invalid Health"
  const InvalidTypeText: string := "Invalid Type"
  const NotFoundText: string := "Account Not found"
  const NoAccountsText: string := "No Accounts Found"
  const WelcomeText: string := "Welcome to Home page"

  /** The `select` every handler starts with; `default` is the handler's own
      work. A fired timer or a done context replaces it by an error whose
      status code is 408 or 500. */
  function Guarded(ready: SelectCase, default: Reply): (r: Reply)
    ensures ready == NoneReady ==> r == default
    ensures ready != NoneReady ==>
      && r.Fail?
      && r.data.Message?
      && StatusCode(r.typ) == (if ready == TimerFired then StatusRequestTimeout else StatusInternalServerError)
  {
    match ready
    case TimerFired => Fail(ErrorTimeout, Message(TimedOutText))
    case ContextDone => Fail(ErrorInternal, Message(InternalText))
    case NoneReady => default
  }

  /** The shared body of the two filtering handlers: parse the query value,
      convert the number to a string the way Go's `T(n)` does, keep the
      matching records, answer them or report not found. A bad number is
      reported as bad_data with the given text, and any answer is a non-empty
      list of records. */
  function FilterReply(accounts: seq<AccountInfo>, text: string, byHealth: bool, invalid: string): (r: Reply)
    ensures Atoi(text).None? <==> r == Fail(ErrorBadData, Message(invalid))
    ensures r.Fail? ==> r.typ == ErrorBadData || r == Fail(ErrorNotFound, Message(NotFoundText))
    ensures r.Answer? ==> r.data.AccountList? && |r.data.accounts| > 0
  {
    match Atoi(text)
    case None => Fail(ErrorBadData, Message(invalid))
    case Some(n) =>
      var sel := if byHealth then ByHealth(RuneString(n)) else ByType(RuneString(n));
      var filtered := Filter(accounts, sel);
      if |filtered| > 0 then Answer(AccountList(filtered)) else Fail(ErrorNotFound, Message(NotFoundText))
  }

  /** The reply of `AccByHealth`: only the four error classifications its
      code names can occur, each with a text, and an answer is a non-empty
      list of records. */
  function ByHealthReply(accounts: seq<AccountInfo>, r: Request): (rep: Reply)
    ensures rep.Fail? ==>
      && rep.data.Message?
      && rep.typ in {ErrorTimeout, ErrorInternal, ErrorBadData, ErrorNotFound}
    ensures rep.Answer? ==> rep.data.AccountList? && |rep.data.accounts| > 0
  {
    Guarded(r.ready, FilterReply(accounts, QueryGet(r.query, "health"), true, InvalidHealthText))
  }

  /** The reply of `AccByType`, with the same four error classifications. */
  function ByTypeReply(accounts: seq<AccountInfo>, r: Request): (rep: Reply)
    ensures rep.Fail? ==>
      && rep.data.Message?
      && rep.typ in {ErrorTimeout, ErrorInternal, ErrorBadData, ErrorNotFound}
    ensures rep.Answer? ==> rep.data.AccountList? && |rep.data.accounts| > 0
  {
    Guarded(r.ready, FilterReply(accounts, QueryGet(r.query, "type"), false, InvalidTypeText))
  }

  /** The reply of `getAllAcc`: the whole collection or one of three errors. */
  function GetAllReply(accounts: seq<AccountInfo>, r: Request): (rep: Reply)
    ensures rep.Fail? ==> rep.typ in {ErrorTimeout, ErrorInternal, ErrorNotFound}
    ensures rep.Answer? ==> rep.data == AccountList(accounts) && |accounts| > 0
  {
    Guarded(r.ready, if |accounts| > 0 then Answer(AccountList(accounts)) else Fail(ErrorNotFound, Message(NoAccountsText)))
  }

  /** The reply of `Home`: the greeting, or one of the two `select` errors. */
  function HomeReply(r: Request): (rep: Reply)
    ensures rep.Fail? ==> rep.typ in {ErrorTimeout, ErrorInternal}
    ensures rep.Answer? ==> rep.data == Message(WelcomeText)
  {
    Guarded(r.ready, Answer(Message(WelcomeText)))
  }

  /** The writer calls that deliver a reply: an answer through
      `writeHttpResponse`, a failure through `RespondError` on an `ApiError`
      with the reply's classification and a nil `Err`, so its error text is "". */
  function ReplyEvents(reply: Reply): (ev: seq<Event<ApiResponse>>)
    ensures reply.Answer? ==> ev == SuccessEvents(reply.data)
    ensures reply.Fail? ==>
      && ev == ErrorEvents(Some(ApiError(reply.typ, None)), reply.data)
      && ev[0] == BodyWritten(ApiResponse(StatusError, reply.data, reply.typ, ""))
  {
    match reply
    case Answer(data) => SuccessEvents(data)
    case Fail(typ, data) => ErrorEvents(Some(ApiError(typ, None)), data)
  }

  /** The handler value; its durations only bound the `select`, which is an
      input here. The handlers take the account collection as a parameter. */
  datatype APIHandler = APIHandler(opts: APIHandlerOptions, baseAPI: BaseAPI)
  {
    /** `AccByHealth`. `accounts` is the value of `services.Accounts` the
        handler reads (the seed collection `Accounts()` once start-up is done). */
    method AccByHealth(w: ResponseWriter<ApiResponse>, r: Request, accounts: seq<AccountInfo>)
      modifies w
      ensures w.trace == old(w.trace) + ReplyEvents(ByHealthReply(accounts, r))
    {
      match r.ready
      case TimerFired =>
        RespondError(w, Some(ApiError(ErrorTimeout, None)), Message(TimedOutText));
      case ContextDone =>
        RespondError(w, Some(ApiError(ErrorInternal, None)), Message(InternalText));
      case NoneReady =>
        var healthStr := QueryGet(r.query, "health");
        var health := Atoi(healthStr);
        if health.None? {
          RespondError(w, Some(ApiError(ErrorBadData, None)), Message(InvalidHealthText));
          return;
        }
        var filtered := SelectAccounts(accounts, ByHealth(RuneString(health.value)));
        if |filtered| > 0 {
          WriteHttpResponse(w, AccountList(filtered));
          return;
        }
        RespondError(w, Some(ApiError(ErrorNotFound, None)), Message(NotFoundText));
    }

    /** `AccByType`, reading `services.Accounts` as `accounts`. */
    method AccByType(w: ResponseWriter<ApiResponse>, r: Request, accounts: seq<AccountInfo>)
      modifies w
      ensures w.trace == old(w.trace) + ReplyEvents(ByTypeReply(accounts, r))
    {
      match r.ready
      case TimerFired =>
        RespondError(w, Some(ApiError(ErrorTimeout, None)), Message(TimedOutText));
      case ContextDone =>
        RespondError(w, Some(ApiError(ErrorInternal, None)), Message(InternalText));
      case NoneReady =>
        var typeStr := QueryGet(r.query, "type");
        var accType := Atoi(typeStr);
        if accType.None? {
          RespondError(w, Some(ApiError(ErrorBadData, None)), Message(InvalidTypeText));
          return;
        }
        var filtered := SelectAccounts(accounts, ByType(RuneString(accType.value)));
        if |filtered| > 0 {
          WriteHttpResponse(w, AccountList(filtered));
          return;
        }
        RespondError(w, Some(ApiError(ErrorNotFound, None)), Message(NotFoundText));
    }

    /** `getAllAcc`, reading `services.Accounts` as `accounts`. */
    method GetAllAcc(w: ResponseWriter<ApiResponse>, r: Request, accounts: seq<AccountInfo>)
      modifies w
      ensures w.trace == old(w.trace) + ReplyEvents(GetAllReply(accounts, r))
    {
      match r.ready
      case TimerFired =>
        RespondError(w, Some(ApiError(ErrorTimeout, None)), Message(TimedOutText));
      case ContextDone =>
        RespondError(w, Some(ApiError(ErrorInternal, None)), Message(InternalText));
      case NoneReady =>
        var allAccounts := accounts;
        if |allAccounts| > 0 {
          WriteHttpResponse(w, AccountList(accounts));
          return;
        }
        RespondError(w, Some(ApiError(ErrorNotFound, None)), Message(NoAccountsText));
    }

    /** `Home`. */
    method Home(w: ResponseWriter<ApiResponse>, r: Request)
      modifies w
      ensures w.trace == old(w.trace) + ReplyEvents(HomeReply(r))
    {
      match r.ready
      case TimerFired =>
        RespondError(w, Some(ApiError(ErrorTimeout, None)), Message(TimedOutText));
      case ContextDone =>
        RespondError(w, Some(ApiError(ErrorInternal, None)), Message(InternalText));
      case NoneReady =>
        WriteHttpResponse(w, Message(WelcomeText));
    }

    /** `Respond`: a success envelope around `data`. */
    method Respond(w: ResponseWriter<ApiResponse>, data: Payload)
      modifies w
      ensures w.trace == old(w.trace) + SuccessEvents(data)
    {
      WriteHttpResponse(w, data);
    }
  }
}
