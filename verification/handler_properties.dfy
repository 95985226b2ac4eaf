/** What the four handlers answer, for any account collection and for the
    seed collection, and what reaches the client. */
module HandlerProperties {
  import opened Wrappers
  import opened Model
  import opened Response
  import opened GoStd
  import opened HttpWriter
  import opened Envelope
  import opened Services
  import opened Api

  /** When the timer has fired or the context is done, every handler answers
      that error, whatever the query and the collection. */
  lemma SelectCasesOverride(accounts: seq<AccountInfo>, r: Request)
    requires r.ready != NoneReady
    ensures var e := if r.ready == TimerFired then Fail(ErrorTimeout, Message(TimedOutText))
                     else Fail(ErrorInternal, Message(InternalText));
      && ByHealthReply(accounts, r) == e && ByTypeReply(accounts, r) == e
      && GetAllReply(accounts, r) == e && HomeReply(r) == e
  {
  }

  /** `/accountsByHealth` once the `default` case runs: an unparsable
      `health` value is bad data; otherwise the answer is a success exactly
      when some record's health equals the one-rune string of the parsed
      number, and it then lists exactly the filtered records; else not found. */
  lemma {:induction false} ByHealthReplySpec(accounts: seq<AccountInfo>, r: Request)
    requires r.ready == NoneReady
    ensures var parsed := Atoi(QueryGet(r.query, "health"));
      && (parsed.None? ==> ByHealthReply(accounts, r) == Fail(ErrorBadData, Message(InvalidHealthText)))
      && (parsed.Some? ==>
            var sel := ByHealth(RuneString(parsed.value));
            && (ByHealthReply(accounts, r).Answer? <==> exists a :: a in accounts && a.accHealth == RuneString(parsed.value))
            && (ByHealthReply(accounts, r).Answer? ==> ByHealthReply(accounts, r) == Answer(AccountList(Filter(accounts, sel))))
            && (!ByHealthReply(accounts, r).Answer? ==> ByHealthReply(accounts, r) == Fail(ErrorNotFound, Message(NotFoundText))))
  {
    var parsed := Atoi(QueryGet(r.query, "health"));
    if parsed.Some? {
      var sel := ByHealth(RuneString(parsed.value));
      FilterMembers(accounts, sel);
      assert ByHealthReply(accounts, r) == FilterReply(accounts, QueryGet(r.query, "health"), true, InvalidHealthText);
      if a :| a in accounts && a.accHealth == RuneString(parsed.value) {
        assert a in Filter(accounts, sel);
        assert |Filter(accounts, sel)| > 0;
      }
      if |Filter(accounts, sel)| > 0 {
        assert Filter(accounts, sel)[0] in Filter(accounts, sel);
      }
    }
  }

  /** `/accountsByType`, the same way over the `type` value and the type field. */
  lemma {:induction false} ByTypeReplySpec(accounts: seq<AccountInfo>, r: Request)
    requires r.ready == NoneReady
    ensures var parsed := Atoi(QueryGet(r.query, "type"));
      && (parsed.None? ==> ByTypeReply(accounts, r) == Fail(ErrorBadData, Message(InvalidTypeText)))
      && (parsed.Some? ==>
            var sel := ByType(RuneString(parsed.value));
            && (ByTypeReply(accounts, r).Answer? <==> exists a :: a in accounts && a.accType == RuneString(parsed.value))
            && (ByTypeReply(accounts, r).Answer? ==> ByTypeReply(accounts, r) == Answer(AccountList(Filter(accounts, sel))))
            && (!ByTypeReply(accounts, r).Answer? ==> ByTypeReply(accounts, r) == Fail(ErrorNotFound, Message(NotFoundText))))
  {
    var parsed := Atoi(QueryGet(r.query, "type"));
    if parsed.Some? {
      var sel := ByType(RuneString(parsed.value));
      FilterMembers(accounts, sel);
      assert ByTypeReply(accounts, r) == FilterReply(accounts, QueryGet(r.query, "type"), false, InvalidTypeText);
      if a :| a in accounts && a.accType == RuneString(parsed.value) {
        assert a in Filter(accounts, sel);
        assert |Filter(accounts, sel)| > 0;
      }
      if |Filter(accounts, sel)| > 0 {
        assert Filter(accounts, sel)[0] in Filter(accounts, sel);
      }
    }
  }

  /** A listed answer holds only records of the requested health or type. */
  lemma {:induction false} AnswersOnlyMatch(accounts: seq<AccountInfo>, r: Request)
    ensures var reply := ByHealthReply(accounts, r);
      reply.Answer? ==>
        && reply.data.AccountList? && |reply.data.accounts| > 0
        && forall a :: a in reply.data.accounts ==>
             a in accounts && a.accHealth == RuneString(Atoi(QueryGet(r.query, "health")).value)
    ensures var reply := ByTypeReply(accounts, r);
      reply.Answer? ==>
        && reply.data.AccountList? && |reply.data.accounts| > 0
        && forall a :: a in reply.data.accounts ==>
             a in accounts && a.accType == RuneString(Atoi(QueryGet(r.query, "type")).value)
  {
    if r.ready == NoneReady {
      var h := Atoi(QueryGet(r.query, "health"));
      if h.Some? { FilterMembers(accounts, ByHealth(RuneString(h.value))); }
      var t := Atoi(QueryGet(r.query, "type"));
      if t.Some? { FilterMembers(accounts, ByType(RuneString(t.value))); }
    }
  }

  /** `/getAll` answers the whole collection, or not found when it is empty. */
  lemma GetAllReplySpec(accounts: seq<AccountInfo>, r: Request)
    requires r.ready == NoneReady
    ensures accounts != [] ==> GetAllReply(accounts, r) == Answer(AccountList(accounts))
    ensures accounts == [] ==> GetAllReply(accounts, r) == Fail(ErrorNotFound, Message(NoAccountsText))
  {
  }

  /** `/` answers the greeting whatever the query. */
  lemma HomeReplySpec(r: Request)
    requires r.ready == NoneReady
    ensures HomeReply(r) == Answer(Message(WelcomeText))
  {
  }

  /** The error envelopes the handlers send have no error text: they are built
      with `&ApiError{Typ: ...}` and no `Err`, so the message travels in `data`.
      Their `WriteHeader` carries the classification's code. */
  lemma FailEnvelope(typ: ErrorType, data: Payload)
    ensures ReplyEvents(Fail(typ, data))[0] == BodyWritten(ApiResponse(StatusError, data, typ, ""))
    ensures ReplyEvents(Fail(typ, data))[2] == StatusWritten(StatusCode(typ))
  {
  }

  /** Whatever a handler answers, the client sees status 200: success writes
      200 itself, and an error's body goes out before its `WriteHeader`. The
      JSON content type is sent with successes only. */
  lemma {:induction false} EveryReplyIsSent200(reply: Reply)
    ensures CommittedStatus(ReplyEvents(reply)) == Some(StatusOK)
    ensures ContentType in HeadersAtCommit(ReplyEvents(reply)) <==> reply.Answer?
  {
    match reply
    case Answer(data) => SuccessResponseOnWire(data);
    case Fail(typ, data) => ErrorResponseOnWire(Some(ApiError(typ, None)), data);
  }

  /** A non-numeric `health` such as "abc" is bad data, with code 400 in its `WriteHeader`. */
  lemma InvalidHealthExample(accounts: seq<AccountInfo>)
    ensures var r := Request(map["health" := ["abc"]], NoneReady);
      && ByHealthReply(accounts, r) == Fail(ErrorBadData, Message(InvalidHealthText))
      && ReplyEvents(ByHealthReply(accounts, r))[2] == StatusWritten(400)
  {
    AtoiExamples();
  }

  /** With the seed collection, no filter ever matches: whatever number the
      query holds, its one-rune string is none of the health or type
      constants. A parsable value therefore always ends in not found, whose
      `WriteHeader` carries 500. */
  lemma {:induction false} SeedFiltersNeverMatch(r: Request)
    ensures !ByHealthReply(Accounts(), r).Answer?
    ensures !ByTypeReply(Accounts(), r).Answer?
    ensures r.ready == NoneReady && Atoi(QueryGet(r.query, "health")).Some? ==>
      ByHealthReply(Accounts(), r) == Fail(ErrorNotFound, Message(NotFoundText)) &&
      ReplyEvents(ByHealthReply(Accounts(), r))[2] == StatusWritten(500)
    ensures r.ready == NoneReady && Atoi(QueryGet(r.query, "type")).Some? ==>
      ByTypeReply(Accounts(), r) == Fail(ErrorNotFound, Message(NotFoundText)) &&
      ReplyEvents(ByTypeReply(Accounts(), r))[2] == StatusWritten(500)
  {
    SeedShape();
    if r.ready == NoneReady {
      ByHealthReplySpec(Accounts(), r);
      ByTypeReplySpec(Accounts(), r);
      var h := Atoi(QueryGet(r.query, "health"));
      if h.Some? { RuneStringIsNoConstant(h.value); }
      var t := Atoi(QueryGet(r.query, "type"));
      if t.Some? { RuneStringIsNoConstant(t.value); }
    }
  }

  /** With the seed collection `/getAll` never takes its not-found branch. */
  lemma SeedGetAll(r: Request)
    requires r.ready == NoneReady
    ensures GetAllReply(Accounts(), r) == Answer(AccountList(Accounts()))
    ensures |Accounts()| == 12
  {
    SeedShape();
  }
}
