/**
 * The public SMS endpoint `/api/sms/send`: POST (key in a header, fields in a
 * JSON body) and the older GET form (everything in the query string). A
 * request is admitted by `validateApiKeyMiddleware`, then logged as pending,
 * sent, and logged again with the carrier's answer.
 *
 * What the outside world answers during one request (the store replies, the
 * carrier login and campaign outcomes, the clock) is the `Env` parameter.
 */
module SendRoute {
  import opened Wrappers
  import opened Text
  import opened Tables
  import opened SmsService
  import opened ApiKeys

  const MissingApiKeyCode := "MISSING_API_KEY"
  const InvalidApiKeyCode := "INVALID_API_KEY"
  const MissingParametersCode := "MISSING_PARAMETERS"
  const SmsSendFailedCode := "SMS_SEND_FAILED"
  const InternalErrorCode := "INTERNAL_ERROR"

  const InternalErrorMessage := "Internal server error"
  const GetParametersMissingMessage := "Parameters missing (number and msg/message required)"

  /** The fields of the POST body; each may be absent. */
  datatype PostBody = PostBody(number: Option<string>, message: Option<string>, phone: Option<string>)

  /** A POST request: two headers and a body, `None` when it is not JSON. */
  datatype PostRequest = PostRequest(xApiKey: Option<string>, authorization: Option<string>, body: Option<PostBody>)

  /** A GET request: the query parameters and the `x-api-key` header. */
  datatype GetRequest = GetRequest(
    number: Option<string>, msg: Option<string>, message: Option<string>,
    apiKeyParam: Option<string>, xApiKey: Option<string>)

  /** The answers of the outside world during one request. */
  datatype Env = Env(
    now: int, lookup: StoreReply, count: StoreReply,
    pendingInsert: StoreReply, resultInsert: StoreReply,
    loginOk: bool, campaignOk: bool)

  /** The HTTP status and the JSON fields `status`, `message` and `error_code`. */
  datatype Reply = Reply(httpStatus: int, status: string, message: string, errorCode: Option<string>)

  /** The reply and what the request appended to the log and to the statistics updates. */
  datatype Outcome = Outcome(reply: Reply, newLogs: seq<SmsLogRow>, newUpdates: seq<StatsUpdate>)

  const MissingKeyReply := Reply(401, "error", ApiKeyRequiredMessage, Some(MissingApiKeyCode))

  function DeniedReply(error: string): Reply
  {
    Reply(401, "error", error, Some(InvalidApiKeyCode))
  }

  /**
   * The key of a POST: the `x-api-key` header if it is truthy, else the
   * `authorization` header with its first `"Bearer "` removed.
   */
  function PostApiKey(xApiKey: Option<string>, authorization: Option<string>): (k: Option<string>)
    ensures Truthy(xApiKey) ==> k == xApiKey
    ensures !Truthy(xApiKey) && authorization.None? ==> k.None?
    ensures !Truthy(xApiKey) && authorization.Some? ==> k == Some(ReplaceFirst(authorization.value, "Bearer ", ""))
  {
    if Truthy(xApiKey) then xApiKey
    else match authorization
      case None => None
      case Some(a) => Some(ReplaceFirst(a, "Bearer ", ""))
  }

  /** A bearer token is accepted when there is no `x-api-key` header. */
  lemma BearerTokenAccepted(xApiKey: Option<string>, token: string)
    requires !Truthy(xApiKey)
    ensures PostApiKey(xApiKey, Some("Bearer " + token)) == Some(token)
  {
    ReplaceLeadingPattern("Bearer ", token);
  }

  /**
   * The common tail of both handlers for an admitted key `id`: log a pending
   * row, send, log a row with the outcome, and answer. `failCode` is the
   * error code of a failed send (POST has one, GET none).
   */
  function SendAndLog(id: Id, phone: string, message: string, env: Env, failCode: Option<string>): (o: Outcome)
    ensures o.newUpdates == [StatsUpdate(id, false), StatsUpdate(id, SendSms(phone, message, env.loginOk, env.campaignOk).success)]
    ensures |o.newLogs| == (if env.pendingInsert.Ok? then 1 else 0) + (if env.resultInsert.Ok? then 1 else 0)
    ensures forall i :: 0 <= i < |o.newLogs| ==> o.newLogs[i].apiKeyId == id && o.newLogs[i].createdAt == env.now
    ensures o.reply.status == "success" <==> SendSms(phone, message, env.loginOk, env.campaignOk).success
    ensures o.reply.httpStatus == (if o.reply.status == "success" then 200 else 400)
    ensures env.pendingInsert.Ok? ==> o.newLogs[0] == LogRow(id, phone, message, Pending, None, env.now)
    ensures var result := SendSms(phone, message, env.loginOk, env.campaignOk);
      env.resultInsert.Ok? ==>
      o.newLogs[|o.newLogs| - 1] ==
        LogRow(id, phone, message, if result.success then Sent else Failed, Some(ResponseData(result.success, result.message)), env.now)
    ensures var result := SendSms(phone, message, env.loginOk, env.campaignOk);
      && (result.success ==> o.reply == Reply(200, "success", SentMessage, None))
      && (!result.success ==> o.reply == Reply(400, "failed", result.message, failCode))
  {
    var result := SendSms(phone, message, env.loginOk, env.campaignOk);
    var status := if result.success then Sent else Failed;
    var first := if env.pendingInsert.Ok? then [LogRow(id, phone, message, Pending, None, env.now)] else [];
    var second := if env.resultInsert.Ok? then [LogRow(id, phone, message, status, Some(ResponseData(result.success, result.message)), env.now)] else [];
    var reply :=
      if result.success then Reply(200, "success", SentMessage, None)
      else Reply(400, "failed", if result.message != "" then result.message else SendFailedMessage, failCode);
    Outcome(reply, first + second, [StatsUpdate(id, false), StatsUpdate(id, result.success)])
  }

  /** POST `/api/sms/send` against the key table `keys` and the log `logs`. */
  function Post(keys: seq<ApiKeyRow>, logs: seq<SmsLogRow>, req: PostRequest, env: Env): (o: Outcome)
    ensures !Truthy(PostApiKey(req.xApiKey, req.authorization)) ==> o == Outcome(MissingKeyReply, [], [])
    ensures o.newUpdates != [] ==> |o.newUpdates| == 2 && o.reply.httpStatus in {200, 400}
    ensures o.reply.httpStatus in {200, 400, 401, 500}
    ensures var k := PostApiKey(req.xApiKey, req.authorization);
      Truthy(k) ==>
      var a := ValidateApiKeyMiddleware(keys, logs, k.value, env.now, env.lookup, env.count);
      && (a.Denied? ==> o == Outcome(DeniedReply(a.error), [], []))
      && (a.Admitted? && req.body.None? ==> o == Outcome(Reply(500, "error", InternalErrorMessage, Some(InternalErrorCode)), [], []))
      && (a.Admitted? && req.body.Some? &&
          (!Truthy(OrElse(req.body.value.number, req.body.value.phone)) || !Truthy(req.body.value.message)) ==>
          o == Outcome(Reply(400, "error", RequiredMessage, Some(MissingParametersCode)), [], []))
    ensures o.newLogs != [] || o.newUpdates != [] ==> PostReachesCarrier(keys, logs, req, env)
    ensures PostReachesCarrier(keys, logs, req, env) ==>
      var a := ValidateApiKeyMiddleware(keys, logs, PostApiKey(req.xApiKey, req.authorization).value, env.now, env.lookup, env.count);
      o == SendAndLog(a.data.id, OrElse(req.body.value.number, req.body.value.phone).value, req.body.value.message.value,
                      env, Some(SmsSendFailedCode))
  {
    var apiKey := PostApiKey(req.xApiKey, req.authorization);
    if !Truthy(apiKey) then Outcome(MissingKeyReply, [], [])
    else match ValidateApiKeyMiddleware(keys, logs, apiKey.value, env.now, env.lookup, env.count)
      case Denied(error) => Outcome(DeniedReply(error), [], [])
      case Admitted(data) =>
        if req.body.None? then Outcome(Reply(500, "error", InternalErrorMessage, Some(InternalErrorCode)), [], [])
        else
          var phone := OrElse(req.body.value.number, req.body.value.phone);
          var message := req.body.value.message;
          if !Truthy(phone) || !Truthy(message) then
            Outcome(Reply(400, "error", RequiredMessage, Some(MissingParametersCode)), [], [])
          else SendAndLog(data.id, phone.value, message.value, env, Some(SmsSendFailedCode))
  }

  /** A POST reaches the carrier exactly when its key is admitted and its body names a phone number and a message. */
  predicate PostReachesCarrier(keys: seq<ApiKeyRow>, logs: seq<SmsLogRow>, req: PostRequest, env: Env)
  {
    var apiKey := PostApiKey(req.xApiKey, req.authorization);
    && Truthy(apiKey)
    && ValidateApiKeyMiddleware(keys, logs, apiKey.value, env.now, env.lookup, env.count).Admitted?
    && req.body.Some?
    && Truthy(OrElse(req.body.value.number, req.body.value.phone))
    && Truthy(req.body.value.message)
  }

  /**
   * A request that does not reach the carrier leaves no trace in the log or
   * the statistics; one that does always reports twice to the statistics.
   * A refused key is answered 401 with the refusal's own message.
   */
  lemma PostTraceIffReachesCarrier(keys: seq<ApiKeyRow>, logs: seq<SmsLogRow>, req: PostRequest, env: Env)
    ensures var o := Post(keys, logs, req, env);
      && (!PostReachesCarrier(keys, logs, req, env) ==> o.newLogs == [] && o.newUpdates == [])
      && (PostReachesCarrier(keys, logs, req, env) ==> |o.newUpdates| == 2)
    ensures var apiKey := PostApiKey(req.xApiKey, req.authorization);
      Truthy(apiKey) && ValidateApiKeyMiddleware(keys, logs, apiKey.value, env.now, env.lookup, env.count).Denied? ==>
      Post(keys, logs, req, env).reply ==
        DeniedReply(ValidateApiKeyMiddleware(keys, logs, apiKey.value, env.now, env.lookup, env.count).error)
  {
  }

  /** A POST succeeds exactly when it reaches the carrier and `sendSMS` succeeds. */
  lemma PostSuccessIff(keys: seq<ApiKeyRow>, logs: seq<SmsLogRow>, req: PostRequest, env: Env)
    ensures Post(keys, logs, req, env).reply.status == "success" <==>
      PostReachesCarrier(keys, logs, req, env) &&
      SendSms(OrElse(req.body.value.number, req.body.value.phone).value, req.body.value.message.value, env.loginOk, env.campaignOk).success
  {
  }

  /**
   * Every admitted send uses up two units of the key's hourly limit when
   * both log inserts succeed: the pending row and the outcome row.
   */
  lemma {:induction false} AdmittedSendUsesTwoUnits(keys: seq<ApiKeyRow>, logs: seq<SmsLogRow>, req: PostRequest, env: Env)
    requires PostReachesCarrier(keys, logs, req, env)
    requires env.pendingInsert.Ok? && env.resultInsert.Ok?
    ensures var id := ValidateApiKeyMiddleware(keys, logs, PostApiKey(req.xApiKey, req.authorization).value,
                                                env.now, env.lookup, env.count).data.id;
      |RecentLogs(logs + Post(keys, logs, req, env).newLogs, id, env.now - OneHourMs)| ==
      |RecentLogs(logs, id, env.now - OneHourMs)| + 2
  {
    var id := ValidateApiKeyMiddleware(keys, logs, PostApiKey(req.xApiKey, req.authorization).value,
                                        env.now, env.lookup, env.count).data.id;
    var added := Post(keys, logs, req, env).newLogs;
    assert |added| == 2;
    LoggedRowCounts(logs, added[0], id, env.now);
    LoggedRowCounts(logs + [added[0]], added[1], id, env.now);
    assert logs + added == logs + [added[0]] + [added[1]];
  }

  /**
   * A key with a limit of two sends one message per hour: after one admitted
   * and fully logged send, the next POST with that key at the same moment is
   * refused for the rate limit.
   */
  lemma SecondSendRefusedAtLimitTwo(keys: seq<ApiKeyRow>, logs: seq<SmsLogRow>, req: PostRequest, env: Env, next: PostRequest)
    requires PostReachesCarrier(keys, logs, req, env)
    requires env.pendingInsert.Ok? && env.resultInsert.Ok? && env.count.Ok?
    requires PostApiKey(next.xApiKey, next.authorization) == PostApiKey(req.xApiKey, req.authorization)
    requires var data := ValidateApiKeyMiddleware(keys, logs, PostApiKey(req.xApiKey, req.authorization).value,
                                                 env.now, env.lookup, env.count).data;
      data.rateLimit == 2 && RecentLogs(logs, data.id, env.now - OneHourMs) == []
    ensures Post(keys, logs + Post(keys, logs, req, env).newLogs, next, env).reply == DeniedReply(RateLimitExceededMessage)
  {
    var key := PostApiKey(req.xApiKey, req.authorization).value;
    var data := ValidateApiKeyMiddleware(keys, logs, key, env.now, env.lookup, env.count).data;
    var after := logs + Post(keys, logs, req, env).newLogs;
    AdmittedSendUsesTwoUnits(keys, logs, req, env);
    assert |RecentLogs(after, data.id, env.now - OneHourMs)| == 2;
    assert env.count == Ok;
    ExhaustedKeyIsDenied(keys, after, key, env.now, env.lookup, data);
  }

  /** The GET form: the key may come from the query or the header, the message from `msg` or `message`. */
  function Get(keys: seq<ApiKeyRow>, logs: seq<SmsLogRow>, req: GetRequest, env: Env): (o: Outcome)
    ensures !Truthy(OrElse(req.apiKeyParam, req.xApiKey)) ==> o == Outcome(MissingKeyReply, [], [])
    ensures o.newUpdates != [] ==> |o.newUpdates| == 2 && o.reply.httpStatus in {200, 400}
    ensures o.reply.httpStatus in {200, 400, 401}
    ensures o.reply.errorCode.Some? ==> o.reply.httpStatus == 401
    ensures Truthy(OrElse(req.apiKeyParam, req.xApiKey)) && (!Truthy(req.number) || !Truthy(OrElse(req.msg, req.message))) ==>
      o == Outcome(Reply(400, "error", GetParametersMissingMessage, None), [], [])
    ensures var k := OrElse(req.apiKeyParam, req.xApiKey);
      Truthy(k) && Truthy(req.number) && Truthy(OrElse(req.msg, req.message)) ==>
      var a := ValidateApiKeyMiddleware(keys, logs, k.value, env.now, env.lookup, env.count);
      a.Denied? ==> o == Outcome(DeniedReply(a.error), [], [])
    ensures o.newLogs != [] || o.newUpdates != [] ==>
      var k := OrElse(req.apiKeyParam, req.xApiKey);
      && Truthy(k) && Truthy(req.number) && Truthy(OrElse(req.msg, req.message))
      && ValidateApiKeyMiddleware(keys, logs, k.value, env.now, env.lookup, env.count).Admitted?
    ensures var k := OrElse(req.apiKeyParam, req.xApiKey);
      Truthy(k) && Truthy(req.number) && Truthy(OrElse(req.msg, req.message)) ==>
      var a := ValidateApiKeyMiddleware(keys, logs, k.value, env.now, env.lookup, env.count);
      a.Admitted? ==> o == SendAndLog(a.data.id, req.number.value, OrElse(req.msg, req.message).value, env, None)
  {
    var message := OrElse(req.msg, req.message);
    var apiKey := OrElse(req.apiKeyParam, req.xApiKey);
    if !Truthy(apiKey) then Outcome(MissingKeyReply, [], [])
    else if !Truthy(req.number) || !Truthy(message) then
      Outcome(Reply(400, "error", GetParametersMissingMessage, None), [], [])
    else match ValidateApiKeyMiddleware(keys, logs, apiKey.value, env.now, env.lookup, env.count)
      case Denied(error) => Outcome(DeniedReply(error), [], [])
      case Admitted(data) => SendAndLog(data.id, req.number.value, message.value, env, None)
  }

  /**
   * Unlike POST, GET checks its parameters before the key: a present key
   * with a missing number or message is answered 400 whatever the key
   * tables hold.
   */
  lemma GetChecksParametersBeforeKey(keys: seq<ApiKeyRow>, logs: seq<SmsLogRow>, req: GetRequest, env: Env)
    requires Truthy(OrElse(req.apiKeyParam, req.xApiKey))
    requires !Truthy(req.number) || !Truthy(OrElse(req.msg, req.message))
    ensures Get(keys, logs, req, env) == Outcome(Reply(400, "error", GetParametersMissingMessage, None), [], [])
  {
  }

  /** The query's `api_key` wins over the header, and `msg` over `message`. */
  lemma GetPrefersQueryParameters(keys: seq<ApiKeyRow>, logs: seq<SmsLogRow>, req: GetRequest, env: Env)
    requires Truthy(req.apiKeyParam) && Truthy(req.number) && Truthy(req.msg)
    ensures var a := ValidateApiKeyMiddleware(keys, logs, req.apiKeyParam.value, env.now, env.lookup, env.count);
      a.Admitted? ==> Get(keys, logs, req, env) == SendAndLog(a.data.id, req.number.value, req.msg.value, env, None)
  {
  }

  // ---------------------------------------------------------------------------
  // The handlers against the store

  /** Log, send and log again through the store, as `SendAndLog` describes. */
  method SendAndRecord(store: ApiKeyStore, id: Id, phone: string, message: string, env: Env, failCode: Option<string>)
    returns (reply: Reply)
    modifies store`logs, store`statsUpdates
    ensures var o := SendAndLog(id, phone, message, env, failCode);
      && reply == o.reply
      && store.logs == old(store.logs) + o.newLogs
      && store.statsUpdates == old(store.statsUpdates) + o.newUpdates
  {
    store.LogSmsUsage(id, phone, message, Pending, None, env.now, env.pendingInsert);
    var result := SendSms(phone, message, env.loginOk, env.campaignOk);
    var status := if result.success then Sent else Failed;
    store.LogSmsUsage(id, phone, message, status, Some(ResponseData(result.success, result.message)), env.now, env.resultInsert);
    if result.success {
      reply := Reply(200, "success", SentMessage, None);
    } else {
      reply := Reply(400, "failed", if result.message != "" then result.message else SendFailedMessage, failCode);
    }
  }

  /** The POST handler: the store ends as `Post` says, with the key table untouched. */
  method HandlePost(store: ApiKeyStore, req: PostRequest, env: Env) returns (reply: Reply)
    modifies store`logs, store`statsUpdates
    ensures var o := Post(old(store.keys), old(store.logs), req, env);
      && reply == o.reply
      && store.logs == old(store.logs) + o.newLogs
      && store.statsUpdates == old(store.statsUpdates) + o.newUpdates
  {
    var apiKey := PostApiKey(req.xApiKey, req.authorization);
    if !Truthy(apiKey) {
      return MissingKeyReply;
    }
    var admission := ValidateApiKeyMiddleware(store.keys, store.logs, apiKey.value, env.now, env.lookup, env.count);
    if admission.Denied? {
      return DeniedReply(admission.error);
    }
    if req.body.None? {
      return Reply(500, "error", InternalErrorMessage, Some(InternalErrorCode));
    }
    var phone := OrElse(req.body.value.number, req.body.value.phone);
    var message := req.body.value.message;
    if !Truthy(phone) || !Truthy(message) {
      return Reply(400, "error", RequiredMessage, Some(MissingParametersCode));
    }
    reply := SendAndRecord(store, admission.data.id, phone.value, message.value, env, Some(SmsSendFailedCode));
  }

  /** The GET handler: the store ends as `Get` says. */
  method HandleGet(store: ApiKeyStore, req: GetRequest, env: Env) returns (reply: Reply)
    modifies store`logs, store`statsUpdates
    ensures var o := Get(old(store.keys), old(store.logs), req, env);
      && reply == o.reply
      && store.logs == old(store.logs) + o.newLogs
      && store.statsUpdates == old(store.statsUpdates) + o.newUpdates
  {
    var message := OrElse(req.msg, req.message);
    var apiKey := OrElse(req.apiKeyParam, req.xApiKey);
    if !Truthy(apiKey) {
      return MissingKeyReply;
    }
    if !Truthy(req.number) || !Truthy(message) {
      return Reply(400, "error", GetParametersMissingMessage, None);
    }
    var admission := ValidateApiKeyMiddleware(store.keys, store.logs, apiKey.value, env.now, env.lookup, env.count);
    if admission.Denied? {
      return DeniedReply(admission.error);
    }
    reply := SendAndRecord(store, admission.data.id, req.number.value, message.value, env, None);
  }
}
