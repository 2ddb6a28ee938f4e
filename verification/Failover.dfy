/**
 The two failover loops, `proxy_inner` (src/routes/proxy.rs) and `messages_inner`
 (src/routes/messages.rs), from routing to reply.

 The upstream is an arbitrary oracle: `upstream[i]` is everything the outside world does to attempt
 `i`, including whether the database accepts the quota mark. Both loops are proved against one closed
 form, `Settled`.
 */
module Failover {
  import opened Wrappers
  import opened Json
  import opened Text
  import opened Usages
  import opened Accounts
  import opened Routing

  datatype ApiError =
    | BadRequest(message: string)
    | Internal(message: string)
    | ServiceUnavailable(message: string)
    | Upstream(message: string)
  {
    function Status(): int {
      match this
      case BadRequest(_) => 400
      case Internal(_) => 500
      case ServiceUnavailable(_) => 503
      case Upstream(_) => 502
    }
  }

  function FromRouting(e: RoutingError): ApiError {
    match e
    case NoAccountConfigured => BadRequest("no account configured")
    case AllQuotaExhausted => ServiceUnavailable("all candidate accounts are quota exhausted")
  }

  datatype Response = Buffered(status: int, body: string) | Streaming(status: int) | Converted(json: Value)

  /** One row of `request_logs`; the caller's identity and the latencies are left out. */
  datatype LogRow = LogRow(
    route: Option<string>, model: Option<string>, stream: bool, status: int,
    usage: Usage, error: Option<string>)

  /** What the HTTP client reports: no answer, or an answer whose body may fail to arrive. */
  datatype Sent = Unreachable | Answer(status: int, body: Option<string>)

  datatype Exchange = Exchange(
    decryptError: Option<ApiError>,
    clientError: Option<ApiError>,
    headerError: Option<ApiError>,
    sent: Sent,
    markSaved: bool,
    now: int)

  /** The request under way: its model and stream flag, how JSON text is read and a status is printed. */
  datatype Request = Request(
    model: Option<string>, stream: bool, parse: string -> Option<Value>, statusText: int -> string)

  predicate IsSuccess(status: int) {
    200 <= status < 300
  }

  // ---- quota classification -----------------------------------------------------------------------

  const QUOTA_KEYWORDS: seq<string> := [
    "quota", "insufficient", "balance", "payment", "billing", "credit", "exhausted",
    "额度", "余额"]

  function ErrorField(err: Value, key: string): seq<string> {
    if err.Get(key).Some? && err.Get(key).value.Str? then [err.Get(key).value.text] else []
  }

  function ErrorFields(err: Value): seq<string> {
    ErrorField(err, "message") + ErrorField(err, "type") + ErrorField(err, "code")
  }

  predicate IsQuotaError(status: int, body: string, parse: string -> Option<Value>) {
    if status == 402 then true
    else if !(400 <= status < 500) then false
    else match parse(body)
      case None => false
      case Some(value) =>
        value.Get("error").Some?
        && var haystack := Lower(JoinLines(ErrorFields(value.Get("error").value)));
           exists keyword :: keyword in QUOTA_KEYWORDS && Contains(haystack, keyword)
  }

  /**
   The classification as the design states it: 402, or another 4xx one of whose error fields names a
   quota keyword. Joining the fields before searching creates no match that spans two of them.
   */
  lemma QuotaErrorIsFieldwise(status: int, body: string, parse: string -> Option<Value>)
    ensures IsQuotaError(status, body, parse) <==>
            || status == 402
            || (400 <= status < 500 && parse(body).Some? && parse(body).value.Get("error").Some?
                && exists f, k :: f in ErrorFields(parse(body).value.Get("error").value)
                                  && k in QUOTA_KEYWORDS && Contains(Lower(f), k))
  {
    if parse(body).Some? && parse(body).value.Get("error").Some? {
      var fields := ErrorFields(parse(body).value.Get("error").value);
      forall k | k in QUOTA_KEYWORDS
        ensures Contains(Lower(JoinLines(fields)), k) <==> exists f :: f in fields && Contains(Lower(f), k)
      {
        ContainedInOneLine(fields, k);
      }
    }
  }

  // ---- one attempt --------------------------------------------------------------------------------

  /** An attempt either moves on to the next account or settles the request. */
  datatype Step =
    | Next(reply: Response, row: LogRow)
    | Done(result: Result<Response, ApiError>, logged: Option<LogRow>)

  function FailureRow(route: Option<KeyRow>, error: ApiError): LogRow {
    LogRow(if route.Some? then Some(route.value.id) else None, None, false, error.Status(), NO_USAGE,
           Some(error.message))
  }

  function Fail(row: KeyRow, error: ApiError): Step {
    Done(Failure(error), Some(FailureRow(Some(row), error)))
  }

  const SWITCHED := "额度耗尽，已停止该账号路由并切换至备用账号"
  const ALL_EXHAUSTED := "全部候选账号额度耗尽"

  function QuotaRow(row: KeyRow, model: Option<string>, status: int): LogRow {
    LogRow(Some(row.id), model, false, status, NO_USAGE, Some(SWITCHED))
  }

  function ReportedUsage(body: string, parse: string -> Option<Value>): Usage {
    if parse(body).Some? then UsageFromJson(parse(body).value).GetOr(NO_USAGE) else NO_USAGE
  }

  /** The upstream's `error.message`, at most 500 characters of it. */
  function ErrorMessage(body: string, parse: string -> Option<Value>): Option<string> {
    if parse(body).Some? && parse(body).value.StrAt(["error", "message"]).Some? then
      var m := parse(body).value.StrAt(["error", "message"]).value;
      Some(if |m| <= 500 then m else m[..500])
    else None
  }

  /** One turn of the loop of `proxy_inner`. The only exit that writes no row is a bad header. */
  function ProxyStep(row: KeyRow, x: Exchange, req: Request): Step {
    if x.decryptError.Some? then Fail(row, x.decryptError.value)
    else if x.clientError.Some? then Fail(row, x.clientError.value)
    else if x.headerError.Some? then Done(Failure(x.headerError.value), None)
    else match x.sent
      case Unreachable => Fail(row, Upstream("upstream unreachable"))
      case Answer(status, body) =>
        if IsSuccess(status) && req.stream then
          Done(Success(Streaming(status)), Some(LogRow(Some(row.id), req.model, true, status, NO_USAGE, None)))
        else if body.None? then Fail(row, Upstream("upstream response read failed"))
        else if IsSuccess(status) then
          Done(Success(Buffered(status, body.value)),
               Some(LogRow(Some(row.id), req.model, false, status, ReportedUsage(body.value, req.parse), None)))
        else if IsQuotaError(status, body.value, req.parse) then
          Next(Buffered(status, body.value), QuotaRow(row, req.model, status))
        else
          Done(Success(Buffered(status, body.value)),
               Some(LogRow(Some(row.id), req.model, false, status, NO_USAGE, ErrorMessage(body.value, req.parse))))
  }

  /**
   One turn of the loop of `messages_inner`. `conversionError` is the failure of `to_openai_request`,
   the same on every turn; `convert` is `to_anthropic_response`. An unreadable error body counts as "".
   */
  function MessagesStep(row: KeyRow, x: Exchange, req: Request, conversionError: Option<ApiError>,
                        convert: Value -> Result<Value, ApiError>): Step
  {
    if x.decryptError.Some? then Fail(row, x.decryptError.value)
    else if conversionError.Some? then Done(Failure(conversionError.value), None)
    else if x.clientError.Some? then Fail(row, x.clientError.value)
    else match x.sent
      case Unreachable => Fail(row, Upstream("upstream unreachable"))
      case Answer(status, read) =>
        if !IsSuccess(status) then
          var body := read.GetOr("");
          if IsQuotaError(status, body, req.parse) then
            Next(Buffered(status, body), QuotaRow(row, req.model, status))
          else
            Done(Success(Buffered(status, body)),
                 Some(LogRow(Some(row.id), req.model, req.stream, status, NO_USAGE,
                             Some(ErrorMessage(body, req.parse).GetOr(req.statusText(status))))))
        else if req.stream then
          Done(Success(Streaming(200)), Some(LogRow(Some(row.id), req.model, true, status, NO_USAGE, None)))
        else if read.None? || req.parse(read.value).None? then
          Done(Failure(Upstream("invalid upstream response")), None)
        else
          var value := req.parse(read.value).value;
          var converted := convert(value);
          Done(if converted.Success? then Success(Converted(converted.value)) else Failure(converted.error),
               Some(LogRow(Some(row.id), req.model, false, status, UsageFromJson(value).GetOr(NO_USAGE), None)))
  }

  /** Reaching the upstream and being told of an exhausted quota is the only way to move on. */
  lemma OnlyQuotaErrorsMoveOn(row: KeyRow, x: Exchange, req: Request)
    ensures ProxyStep(row, x, req).Next? <==>
            && x.decryptError.None? && x.clientError.None? && x.headerError.None?
            && x.sent.Answer? && x.sent.body.Some? && 400 <= x.sent.status < 500
            && IsQuotaError(x.sent.status, x.sent.body.value, req.parse)
    ensures ProxyStep(row, x, req).Done? && ProxyStep(row, x, req).logged.None? ==> x.headerError.Some?
  {
  }

  /**
   On the same exchange the two loops decide alike about moving on, except for an unreadable 402:
   the first answers 502, the second treats the missing body as "" and moves on.
   */
  lemma LoopsAgreeUnlessUnreadable402(row: KeyRow, x: Exchange, req: Request,
                                      convert: Value -> Result<Value, ApiError>)
    requires req.parse("").None? && x.headerError.None?
    ensures var reached := x.decryptError.None? && x.clientError.None? && x.sent.Answer?;
            (ProxyStep(row, x, req).Next? == MessagesStep(row, x, req, None, convert).Next?)
            <==> !(reached && x.sent.status == 402 && x.sent.body.None?)
  {
  }

  // ---- the closed form ----------------------------------------------------------------------------

  /** What each attempt would do if it were made. */
  function ProxySteps(c: seq<KeyRow>, upstream: nat -> Exchange, req: Request): seq<Step> {
    seq(|c|, i requires 0 <= i < |c| => ProxyStep(c[i], upstream(i), req))
  }

  function MessagesSteps(c: seq<KeyRow>, upstream: nat -> Exchange, req: Request,
                         conversionError: Option<ApiError>, convert: Value -> Result<Value, ApiError>): seq<Step>
  {
    seq(|c|, i requires 0 <= i < |c| => MessagesStep(c[i], upstream(i), req, conversionError, convert))
  }

  /** How many attempts, from the first one on, were quota errors. */
  function LeadingQuota(steps: seq<Step>): (k: nat)
    ensures k <= |steps|
    ensures forall j :: 0 <= j < k ==> steps[j].Next?
    ensures k < |steps| ==> steps[k].Done?
  {
    if steps == [] || steps[0].Done? then 0 else 1 + LeadingQuota(steps[1..])
  }

  /** The log rows of a run of quota errors. */
  function QuotaRows(steps: seq<Step>): (rows: seq<LogRow>)
    ensures |rows| == |steps|
    ensures forall j :: 0 <= j < |steps| && steps[j].Next? ==> rows[j] == steps[j].row
  {
    if steps == [] then []
    else QuotaRows(steps[..|steps| - 1])
         + [match steps[|steps| - 1]
            case Next(_, row) => row
            case Done(_, _) => LogRow(None, None, false, 0, NO_USAGE, None)]
  }

  /** The marks the database accepted during the first `k` attempts. */
  function SavedMarks(c: seq<KeyRow>, upstream: nat -> Exchange, k: nat): seq<Mark>
    requires k <= |c|
  {
    if k == 0 then []
    else SavedMarks(c, upstream, k - 1)
         + if upstream(k - 1).markSaved then [Mark(c[k - 1].id, upstream(k - 1).now)] else []
  }

  function ExhaustedRow(last: KeyRow, model: Option<string>, reply: Response): LogRow {
    LogRow(Some(last.id), model, false, if reply.Buffered? then reply.status else 0, NO_USAGE,
           Some(ALL_EXHAUSTED))
  }

  /** The rows a request writes to the log. */
  function RequestRows(c: seq<KeyRow>, steps: seq<Step>, model: Option<string>): seq<LogRow>
    requires |c| == |steps| && c != []
  {
    var k := LeadingQuota(steps);
    QuotaRows(steps[..k])
    + if k < |c| then (if steps[k].logged.Some? then [steps[k].logged.value] else [])
      else [ExhaustedRow(c[|c| - 1], model, steps[|c| - 1].reply)]
  }

  /**
   What a request over the candidates `c` does. With `k` the number of leading quota errors, exactly
   `c[0..k]` are marked (those whose mark was saved). If an attempt is left it is made, and settles the
   reply; otherwise the reply is the last quota response.
   */
  ghost predicate Served(rows: seq<KeyRow>, logs: seq<LogRow>, rows': seq<KeyRow>, logs': seq<LogRow>,
                         c: seq<KeyRow>, upstream: nat -> Exchange, steps: seq<Step>, model: Option<string>,
                         result: Result<Response, ApiError>)
    requires |c| == |steps| && c != []
  {
    var k := LeadingQuota(steps);
    && rows' == MarkAll(rows, SavedMarks(c, upstream, k))
    && logs' == logs + RequestRows(c, steps, model)
    && result == if k < |c| then steps[k].result else Success(steps[|c| - 1].reply)
  }

  // ---- what the caller and the log are told -------------------------------------------------------

  /** The reply carries the status and the body that the upstream sent. */
  predicate Transparent(x: Exchange, reply: Response) {
    x.sent.Answer?
    && match reply
       case Buffered(status, body) => status == x.sent.status && x.sent.body == Some(body)
       case Streaming(status) => status == x.sent.status && 200 <= status < 300
       case Converted(_) => false
  }

  predicate LocalError(x: Exchange, e: ApiError) {
    x.decryptError == Some(e) || x.clientError == Some(e) || x.headerError == Some(e)
  }

  predicate Reached(x: Exchange) {
    x.decryptError.None? && x.clientError.None? && x.headerError.None?
  }

  /** A row about an answer of the upstream. */
  predicate LogsAnswer(log: LogRow, row: KeyRow, x: Exchange, req: Request) {
    x.sent.Answer? && log.route == Some(row.id) && log.model == req.model && log.status == x.sent.status
  }

  /** A row about a request that got no answer to pass on. */
  predicate LogsFailure(log: LogRow, row: KeyRow, e: ApiError) {
    log == LogRow(Some(row.id), None, false, e.Status(), NO_USAGE, Some(e.message))
  }

  /**
   One turn of the first loop, from the exchange alone. Whatever the upstream answers is passed on and logged under
   its own status; only a failure to get an answer is the gateway's own: the local error that stopped it, or a 502.
   */
  lemma ProxyTurn(row: KeyRow, x: Exchange, req: Request)
    ensures match ProxyStep(row, x, req)
            case Next(reply, log) =>
              Reached(x) && Transparent(x, reply) && reply.Buffered? && LogsAnswer(log, row, x, req)
              && !log.stream && log.usage == NO_USAGE && log.error.Some?
            case Done(Success(reply), logged) =>
              && Reached(x) && Transparent(x, reply) && logged.Some? && LogsAnswer(logged.value, row, x, req)
              && (reply.Streaming? <==> 200 <= x.sent.status < 300 && req.stream)
              && (logged.value.stream <==> reply.Streaming?)
              && (200 <= x.sent.status < 300 ==> logged.value.error.None?)
            case Done(Failure(e), logged) =>
              && (if Reached(x) then e.Status() == 502 && (x.sent.Unreachable? || x.sent.body.None?)
                  else LocalError(x, e))
              && (logged.Some? ==> LogsFailure(logged.value, row, e))
              && (logged.None? ==> x.headerError == Some(e))
  {
  }

  /** The usage of a buffered success is the one its body reports; everything else is logged without. */
  lemma LoggedUsage(row: KeyRow, x: Exchange, req: Request, v: Value)
    requires Reached(x) && x.sent.Answer? && x.sent.body.Some? && req.parse(x.sent.body.value) == Some(v)
    requires !(200 <= x.sent.status < 300 && req.stream)
    ensures match ProxyStep(row, x, req)
            case Next(_, log) => log.usage == NO_USAGE
            case Done(_, Some(log)) =>
              log.usage == (if 200 <= x.sent.status < 300 && UsageFromJson(v).Some? then UsageFromJson(v).value
                            else NO_USAGE)
            case Done(_, None) => false
  {
  }

  /** An error body as OpenAI-style upstreams send it. */
  function ErrorBody(fields: map<string, Value>): Value {
    Object(map["error" := Object(fields)])
  }

  /** A refusal that is no quota error is logged with the upstream's own message, at most 500 characters of it. */
  lemma LoggedError(row: KeyRow, x: Exchange, req: Request, fields: map<string, Value>, message: string)
    requires Reached(x) && x.sent.Answer? && x.sent.body.Some? && !(200 <= x.sent.status < 300)
    requires req.parse(x.sent.body.value) == Some(ErrorBody(fields["message" := Str(message)]))
    requires !IsQuotaError(x.sent.status, x.sent.body.value, req.parse)
    ensures var step := ProxyStep(row, x, req);
            && step.Done? && step.logged.Some? && step.logged.value.error.Some?
            && var logged := step.logged.value.error.value;
               logged <= message && |logged| == if |message| < 500 then |message| else 500
  {
    var v := ErrorBody(fields["message" := Str(message)]);
    MessageAt(fields["message" := Str(message)], message);
    assert ErrorMessage(x.sent.body.value, req.parse) == Some(if |message| <= 500 then message else message[..500]);
  }

  /** The second loop logs the same, and the status as text when the body has no such message. */
  lemma LoggedMessagesError(row: KeyRow, x: Exchange, req: Request, convert: Value -> Result<Value, ApiError>,
                            fields: map<string, Value>, message: string)
    requires Reached(x) && x.sent.Answer? && x.sent.body.Some? && !(200 <= x.sent.status < 300)
    requires !IsQuotaError(x.sent.status, x.sent.body.value, req.parse)
    ensures var step := MessagesStep(row, x, req, None, convert);
            && step.Done? && step.logged.Some? && step.logged.value.error.Some?
            && var logged := step.logged.value.error.value;
               && (req.parse(x.sent.body.value) == Some(ErrorBody(fields["message" := Str(message)])) ==>
                     logged <= message && |logged| == if |message| < 500 then |message| else 500)
               && (req.parse(x.sent.body.value).None? ==> logged == req.statusText(x.sent.status))
  {
    if req.parse(x.sent.body.value) == Some(ErrorBody(fields["message" := Str(message)])) {
      MessageAt(fields["message" := Str(message)], message);
    }
  }

  lemma MessageAt(fields: map<string, Value>, message: string)
    requires "message" in fields && fields["message"] == Str(message)
    ensures ErrorBody(fields).StrAt(["error", "message"]) == Some(message)
  {
    var inner := Object(fields);
    assert ["error", "message"][1..] == ["message"] && ["message"][1..] == [];
    assert ErrorBody(fields).Get("error") == Some(inner);
    assert inner.Get("message") == Some(Str(message));
    assert inner.Pointer(["message"]) == Str(message).Pointer([]);
    assert ErrorBody(fields).Pointer(["error", "message"]) == inner.Pointer(["message"]);
  }

  /** Which bodies are quota errors, on bodies as they are built: a keyword in one of three fields. */
  lemma QuotaOfErrorBody(status: int, body: string, parse: string -> Option<Value>, key: string, text: string)
    requires parse(body) == Some(ErrorBody(map[key := Str(text)])) && 400 <= status < 500 && status != 402
    ensures IsQuotaError(status, body, parse) <==>
            key in {"message", "type", "code"}
            && exists k :: k in ["quota", "insufficient", "balance", "payment", "billing", "credit", "exhausted",
                                 "额度", "余额"] && Contains(Lower(text), k)
  {
    var err := Object(map[key := Str(text)]);
    assert parse(body).value.Get("error") == Some(err);
    forall k: string ensures ErrorField(err, k) == if k == key then [text] else [] {
      assert err.Get(k) == if k == key then Some(Str(text)) else None;
    }
    QuotaErrorIsFieldwise(status, body, parse);
    assert ErrorFields(err) == if key in {"message", "type", "code"} then [text] else [];
  }

  /** The answer that settles a request: the first that is no quota error, or else the last one. */
  function Deciding(steps: seq<Step>): nat
    requires steps != []
  {
    var k := LeadingQuota(steps);
    if k < |steps| then k else |steps| - 1
  }

  /** The log rows of one request, in order: whose attempt each is about and what was answered. */
  ghost predicate LogsInOrder(rows: seq<LogRow>, c: seq<KeyRow>, upstream: nat -> Exchange, k: nat)
    requires k <= |c|
  {
    k <= |rows| && forall j :: 0 <= j < k ==>
      upstream(j).sent.Answer? && rows[j].route == Some(c[j].id) && rows[j].status == upstream(j).sent.status
  }

  /**
   A whole request of the first loop is transparent: if it has a reply, that is what the upstream answered to the
   deciding attempt; and the log tells, attempt by attempt, which account was asked and what it answered.
   */
  lemma RepliesAreTransparent(c: seq<KeyRow>, upstream: nat -> Exchange, req: Request, model: Option<string>,
                              result: Result<Response, ApiError>)
    requires c != []
    requires var steps := ProxySteps(c, upstream, req); var k := LeadingQuota(steps);
             result == if k < |c| then steps[k].result else Success(steps[|c| - 1].reply)
    ensures var steps := ProxySteps(c, upstream, req);
            && (result.Success? ==> Transparent(upstream(Deciding(steps)), result.value))
            && (result.Failure? ==> result.error.Status() == 502 || LocalError(upstream(Deciding(steps)), result.error))
            && LogsInOrder(RequestRows(c, steps, model), c, upstream, LeadingQuota(steps))
            && (LeadingQuota(steps) == |c| ==>
                  var last := RequestRows(c, steps, model)[|c|];
                  last.status == upstream(|c| - 1).sent.status && last.route == Some(c[|c| - 1].id)
                  && last.error == Some("全部候选账号额度耗尽"))
  {
    var steps := ProxySteps(c, upstream, req);
    var k := LeadingQuota(steps);
    forall j | 0 <= j < |c| && (j < k || j == Deciding(steps)) ensures steps[j] == ProxyStep(c[j], upstream(j), req) {
      ProxyTurn(c[j], upstream(j), req);
    }
    forall j | 0 <= j < k
      ensures upstream(j).sent.Answer? && steps[j].row.route == Some(c[j].id)
              && steps[j].row.status == upstream(j).sent.status
    {
      ProxyTurn(c[j], upstream(j), req);
    }
    ProxyTurn(c[Deciding(steps)], upstream(Deciding(steps)), req);
  }

  // ---- the same of the second loop ----------------------------------------------------------------

  /** The reply is the upstream's, converted when it is a success; an error body that cannot be read is empty. */
  predicate Faithful(x: Exchange, reply: Response, req: Request, convert: Value -> Result<Value, ApiError>) {
    x.sent.Answer?
    && match reply
       case Buffered(status, body) =>
         !(200 <= x.sent.status < 300) && status == x.sent.status
         && body == (if x.sent.body.Some? then x.sent.body.value else "")
       case Streaming(status) => status == 200 && 200 <= x.sent.status < 300 && req.stream
       case Converted(json) =>
         200 <= x.sent.status < 300 && !req.stream && x.sent.body.Some?
         && req.parse(x.sent.body.value).Some? && convert(req.parse(x.sent.body.value).value) == Success(json)
  }

  /** The failure is a local one, the request's or its conversion's, the conversion of the answer's, or a 502. */
  predicate OwnFailure(x: Exchange, e: ApiError, req: Request, conversionError: Option<ApiError>,
                       convert: Value -> Result<Value, ApiError>)
  {
    || x.decryptError == Some(e) || x.clientError == Some(e) || conversionError == Some(e)
    || e.Status() == 502
    || (x.sent.Answer? && x.sent.body.Some? && req.parse(x.sent.body.value).Some?
        && convert(req.parse(x.sent.body.value).value) == Failure(e))
  }

  /** One turn of the second loop, from the exchange alone. */
  lemma MessagesTurn(row: KeyRow, x: Exchange, req: Request, conversionError: Option<ApiError>,
                     convert: Value -> Result<Value, ApiError>)
    ensures match MessagesStep(row, x, req, conversionError, convert)
            case Next(reply, log) =>
              Faithful(x, reply, req, convert) && reply.Buffered? && LogsAnswer(log, row, x, req)
              && !log.stream && log.usage == NO_USAGE && log.error.Some?
            case Done(Success(reply), logged) =>
              && Faithful(x, reply, req, convert) && logged.Some? && LogsAnswer(logged.value, row, x, req)
              && logged.value.stream == req.stream
              && logged.value.error.Some? == !(200 <= x.sent.status < 300)
              && (reply.Converted? ==>
                    logged.value.usage == UsageFromJson(req.parse(x.sent.body.value).value).GetOr(NO_USAGE))
            case Done(Failure(e), logged) =>
              && OwnFailure(x, e, req, conversionError, convert)
              && (x.decryptError.Some? || (conversionError.None? && x.clientError.Some?) ==>
                    logged.Some? && LogsFailure(logged.value, row, e))
              && (x.decryptError.None? && conversionError.Some? ==> logged.None? && Some(e) == conversionError)
              && (x.decryptError.None? && conversionError.None? && x.clientError.None? && x.sent.Unreachable? ==>
                    e.Status() == 502 && logged.Some? && LogsFailure(logged.value, row, e))
  {
  }

  /** A whole request of the second loop is as faithful. */
  lemma MessagesRepliesAreFaithful(c: seq<KeyRow>, upstream: nat -> Exchange, req: Request,
                                   conversionError: Option<ApiError>, convert: Value -> Result<Value, ApiError>,
                                   model: Option<string>, result: Result<Response, ApiError>)
    requires c != []
    requires var steps := MessagesSteps(c, upstream, req, conversionError, convert); var k := LeadingQuota(steps);
             result == if k < |c| then steps[k].result else Success(steps[|c| - 1].reply)
    ensures var steps := MessagesSteps(c, upstream, req, conversionError, convert);
            var x := upstream(Deciding(steps));
            && (result.Success? ==> Faithful(x, result.value, req, convert))
            && (result.Failure? ==> OwnFailure(x, result.error, req, conversionError, convert))
            && LogsInOrder(RequestRows(c, steps, model), c, upstream, LeadingQuota(steps))
  {
    var steps := MessagesSteps(c, upstream, req, conversionError, convert);
    var k := LeadingQuota(steps);
    forall j | 0 <= j < k
      ensures upstream(j).sent.Answer? && steps[j].row.route == Some(c[j].id)
              && steps[j].row.status == upstream(j).sent.status
    {
      MessagesTurn(c[j], upstream(j), req, conversionError, convert);
    }
    MessagesTurn(c[Deciding(steps)], upstream(Deciding(steps)), req, conversionError, convert);
  }

  // ---- routing refusals ---------------------------------------------------------------------------

  /** Refused before any attempt, and logged once: 400 when no account is enabled, 503 when some are. */
  ghost predicate Refused(rows: seq<KeyRow>, log: LogRow, result: Result<Response, ApiError>) {
    && result.Failure?
    && log == LogRow(None, None, false, result.error.Status(), NO_USAGE, Some(result.error.message))
    && (UniqueIds(rows) ==> result.error.Status() == if exists r :: r in rows && r.isEnabled then 503 else 400)
  }

  lemma RoutingRefuses(rows: seq<KeyRow>, model: Option<string>, hash: Hash, affinity: string)
    requires RoutingCandidates(rows, model, hash, affinity).Failure?
    ensures var e := FromRouting(RoutingCandidates(rows, model, hash, affinity).error);
            Refused(rows, FailureRow(None, e), Failure(e))
  {
    if UniqueIds(rows) {
      CandidatesAreExactlyEligible(rows, model, hash, affinity);
    }
  }

  /** The reply to the caller, told from the exchange that settled the request. */
  ghost predicate ProxyReply(c: seq<KeyRow>, upstream: nat -> Exchange, req: Request, result: Result<Response, ApiError>)
    requires c != []
  {
    var x := upstream(Deciding(ProxySteps(c, upstream, req)));
    if result.Success? then Transparent(x, result.value) else result.error.Status() == 502 || LocalError(x, result.error)
  }

  ghost predicate MessagesReply(c: seq<KeyRow>, upstream: nat -> Exchange, req: Request,
                                conversionError: Option<ApiError>, convert: Value -> Result<Value, ApiError>,
                                result: Result<Response, ApiError>)
    requires c != []
  {
    var x := upstream(Deciding(MessagesSteps(c, upstream, req, conversionError, convert)));
    if result.Success? then Faithful(x, result.value, req, convert)
    else OwnFailure(x, result.error, req, conversionError, convert)
  }

  /** One log row for each attempt but an unlogged exit, and one more when every account is exhausted. */
  lemma RowsPerRequest(c: seq<KeyRow>, steps: seq<Step>, model: Option<string>)
    requires |c| == |steps| && c != []
    ensures var k := LeadingQuota(steps);
            var attempts := if k < |c| then k + 1 else k;
            |RequestRows(c, steps, model)|
            == if k == |c| then attempts + 1
               else if steps[k].logged.Some? then attempts else attempts - 1
  {
  }

  /**
   When every quota mark of a request was saved, the routing query asked afterwards returns exactly
   the accounts not yet found exhausted, in the order the loop was going to try them.
   */
  lemma {:induction false} RoutingAfterRequest(
      rows: seq<KeyRow>, logs: seq<LogRow>, rows': seq<KeyRow>, logs': seq<LogRow>,
      c: seq<KeyRow>, upstream: nat -> Exchange, steps: seq<Step>, model: Option<string>,
      result: Result<Response, ApiError>, hash: Hash, affinity: string)
    requires UniqueIds(rows) && RoutingCandidates(rows, model, hash, affinity) == Success(c)
    requires |c| == |steps|
    requires Served(rows, logs, rows', logs', c, upstream, steps, model, result)
    requires forall j :: 0 <= j < LeadingQuota(steps) ==> upstream(j).markSaved
    ensures var k := LeadingQuota(steps);
            RoutingCandidates(rows', model, hash, affinity)
            == if k < |c| then Success(c[k..]) else Failure(AllQuotaExhausted)
  {
    var k := LeadingQuota(steps);
    AllMarksSaved(c, upstream, k);
    RequeryIsSuffix(rows, model, hash, affinity, c, SavedMarks(c, upstream, k));
  }

  lemma {:induction false} AllMarksSaved(c: seq<KeyRow>, upstream: nat -> Exchange, k: nat)
    requires k <= |c|
    requires forall j :: 0 <= j < k ==> upstream(j).markSaved
    ensures |SavedMarks(c, upstream, k)| == k
    ensures forall j :: 0 <= j < k ==> SavedMarks(c, upstream, k)[j].id == c[j].id
  {
    if k > 0 {
      AllMarksSaved(c, upstream, k - 1);
    }
  }

  lemma {:induction false} MarkAllSnoc(rows: seq<KeyRow>, marks: seq<Mark>, m: Mark)
    ensures MarkAll(rows, marks + [m]) == SetQuotaExhausted(MarkAll(rows, marks), m.id, true, m.now)
    decreases marks
  {
    if marks == [] {
      assert (marks + [m])[1..] == [];
    } else {
      assert (marks + [m])[1..] == marks[1..] + [m];
      MarkAllSnoc(SetQuotaExhausted(rows, marks[0].id, true, marks[0].now), marks[1..], m);
    }
  }

  lemma LeadingQuotaIs(steps: seq<Step>, i: nat)
    requires i <= |steps| && forall j :: 0 <= j < i ==> steps[j].Next?
    requires i < |steps| ==> steps[i].Done?
    ensures LeadingQuota(steps) == i
  {
  }

  /** Where a loop stands after `i` quota errors. */
  ghost predicate Looping(rows: seq<KeyRow>, logs: seq<LogRow>, rows': seq<KeyRow>, logs': seq<LogRow>,
                          c: seq<KeyRow>, upstream: nat -> Exchange, steps: seq<Step>, i: nat,
                          last: Option<Response>)
    requires |c| == |steps|
  {
    && i <= |c|
    && (forall j :: 0 <= j < i ==> steps[j].Next?)
    && rows' == MarkAll(rows, SavedMarks(c, upstream, i))
    && logs' == logs + QuotaRows(steps[..i])
    && last == if i == 0 then None else Some(steps[i - 1].reply)
  }

  /** The effect of one attempt on the tables. */
  ghost predicate Attempted(rows: seq<KeyRow>, logs: seq<LogRow>, rows': seq<KeyRow>, logs': seq<LogRow>,
                            row: KeyRow, x: Exchange, step: Step)
  {
    && rows' == (if step.Next? && x.markSaved then SetQuotaExhausted(rows, row.id, true, x.now) else rows)
    && logs' == logs + match step
                       case Next(_, r) => [r]
                       case Done(_, Some(r)) => [r]
                       case Done(_, None) => []
  }

  lemma OneMoreQuotaError(rows: seq<KeyRow>, logs: seq<LogRow>, rows1: seq<KeyRow>, logs1: seq<LogRow>,
                          rows2: seq<KeyRow>, logs2: seq<LogRow>, c: seq<KeyRow>, upstream: nat -> Exchange,
                          steps: seq<Step>, i: nat, last: Option<Response>)
    requires |c| == |steps| && i < |c| && steps[i].Next?
    requires Looping(rows, logs, rows1, logs1, c, upstream, steps, i, last)
    requires Attempted(rows1, logs1, rows2, logs2, c[i], upstream(i), steps[i])
    ensures Looping(rows, logs, rows2, logs2, c, upstream, steps, i + 1, Some(steps[i].reply))
  {
    MarkAllSnoc(rows, SavedMarks(c, upstream, i), Mark(c[i].id, upstream(i).now));
    assert SavedMarks(c, upstream, i) + [] == SavedMarks(c, upstream, i);
    assert steps[..i + 1][..i] == steps[..i];
    assert steps[..i + 1][i] == steps[i];
    assert QuotaRows(steps[..i + 1]) == QuotaRows(steps[..i]) + [steps[i].row];
  }

  lemma SettledAt(rows: seq<KeyRow>, logs: seq<LogRow>, rows1: seq<KeyRow>, logs1: seq<LogRow>,
                  rows2: seq<KeyRow>, logs2: seq<LogRow>, c: seq<KeyRow>, upstream: nat -> Exchange,
                  steps: seq<Step>, i: nat, last: Option<Response>, model: Option<string>)
    requires |c| == |steps| && i < |c| && steps[i].Done?
    requires Looping(rows, logs, rows1, logs1, c, upstream, steps, i, last)
    requires Attempted(rows1, logs1, rows2, logs2, c[i], upstream(i), steps[i])
    ensures Served(rows, logs, rows2, logs2, c, upstream, steps, model, steps[i].result)
  {
    LeadingQuotaIs(steps, i);
  }

  lemma SettledByExhaustion(rows: seq<KeyRow>, logs: seq<LogRow>, rows1: seq<KeyRow>, logs1: seq<LogRow>,
                            c: seq<KeyRow>, upstream: nat -> Exchange, steps: seq<Step>,
                            last: Option<Response>, model: Option<string>)
    requires |c| == |steps| && c != []
    requires Looping(rows, logs, rows1, logs1, c, upstream, steps, |c|, last)
    ensures last.Some?
    ensures Served(rows, logs, rows1, logs1 + [ExhaustedRow(c[|c| - 1], model, last.value)],
                   c, upstream, steps, model, Success(last.value))
  {
    LeadingQuotaIs(steps, |c|);
  }

  /** `proxy_inner` and `messages_inner` run against the account table and the request log. */
  class Gateway {
    var rows: seq<KeyRow>
    var logs: seq<LogRow>

    constructor (rows: seq<KeyRow>)
      ensures this.rows == rows && logs == []
    {
      this.rows := rows;
      logs := [];
    }

    method InsertLog(row: LogRow)
      modifies this`logs
      ensures logs == old(logs) + [row]
    {
      logs := logs + [row];
    }

    method MarkExhausted(row: KeyRow, x: Exchange)
      modifies this`rows
      ensures rows == if x.markSaved then SetQuotaExhausted(old(rows), row.id, true, x.now) else old(rows)
    {
      if x.markSaved {
        rows := SetQuotaExhausted(rows, row.id, true, x.now);
      }
    }

    /** The body of the loop of `proxy_inner`. */
    method TryAccount(row: KeyRow, x: Exchange, req: Request) returns (step: Step)
      modifies this
      ensures step == ProxyStep(row, x, req)
      ensures Attempted(old(rows), old(logs), rows, logs, row, x, step)
    {
      if x.decryptError.Some? {
        InsertLog(FailureRow(Some(row), x.decryptError.value));
        return Fail(row, x.decryptError.value);
      }
      if x.clientError.Some? {
        InsertLog(FailureRow(Some(row), x.clientError.value));
        return Fail(row, x.clientError.value);
      }
      if x.headerError.Some? {
        return Done(Failure(x.headerError.value), None);
      }
      if x.sent.Unreachable? {
        InsertLog(FailureRow(Some(row), Upstream("upstream unreachable")));
        return Fail(row, Upstream("upstream unreachable"));
      }
      var status := x.sent.status;
      if IsSuccess(status) && req.stream {
        var log := LogRow(Some(row.id), req.model, true, status, NO_USAGE, None);
        InsertLog(log);
        return Done(Success(Streaming(status)), Some(log));
      }
      if x.sent.body.None? {
        InsertLog(FailureRow(Some(row), Upstream("upstream response read failed")));
        return Fail(row, Upstream("upstream response read failed"));
      }
      var body := x.sent.body.value;
      if IsSuccess(status) {
        var log := LogRow(Some(row.id), req.model, false, status, ReportedUsage(body, req.parse), None);
        InsertLog(log);
        return Done(Success(Buffered(status, body)), Some(log));
      }
      if IsQuotaError(status, body, req.parse) {
        MarkExhausted(row, x);
        var log := QuotaRow(row, req.model, status);
        InsertLog(log);
        return Next(Buffered(status, body), log);
      }
      var log := LogRow(Some(row.id), req.model, false, status, NO_USAGE, ErrorMessage(body, req.parse));
      InsertLog(log);
      return Done(Success(Buffered(status, body)), Some(log));
    }

    /** The loop of `proxy_inner` over its candidates. `lastQuotaError.value` at the end is the source's `expect`. */
    method TryInOrder(candidates: seq<KeyRow>, req: Request, upstream: nat -> Exchange)
      returns (result: Result<Response, ApiError>)
      requires candidates != []
      modifies this
      ensures Served(old(rows), old(logs), rows, logs, candidates, upstream,
                     ProxySteps(candidates, upstream, req), req.model, result)
    {
      ghost var steps := ProxySteps(candidates, upstream, req);
      var lastQuotaError: Option<Response> := None;
      for i := 0 to |candidates|
        invariant Looping(old(rows), old(logs), rows, logs, candidates, upstream, steps, i, lastQuotaError)
      {
        ghost var rows1, logs1 := rows, logs;
        var step := TryAccount(candidates[i], upstream(i), req);
        if step.Done? {
          SettledAt(old(rows), old(logs), rows1, logs1, rows, logs, candidates, upstream, steps, i,
                    lastQuotaError, req.model);
          return step.result;
        }
        OneMoreQuotaError(old(rows), old(logs), rows1, logs1, rows, logs, candidates, upstream, steps, i,
                          lastQuotaError);
        lastQuotaError := Some(step.reply);
      }
      SettledByExhaustion(old(rows), old(logs), rows, logs, candidates, upstream, steps, lastQuotaError, req.model);
      InsertLog(ExhaustedRow(candidates[|candidates| - 1], req.model, lastQuotaError.value));
      return Success(lastQuotaError.value);
    }

    /** `proxy_inner` from routing on. */
    method ProxyInner(hash: Hash, affinity: string, req: Request, upstream: nat -> Exchange)
      returns (result: Result<Response, ApiError>)
      modifies this
      ensures match RoutingCandidates(old(rows), req.model, hash, affinity)
              case Failure(e) =>
                && result == Failure(FromRouting(e)) && rows == old(rows)
                && logs == old(logs) + [FailureRow(None, FromRouting(e))]
              case Success(c) =>
                Served(old(rows), old(logs), rows, logs, c, upstream, ProxySteps(c, upstream, req), req.model, result)
      ensures match RoutingCandidates(old(rows), req.model, hash, affinity)
              case Failure(_) => |logs| == |old(logs)| + 1 && Refused(old(rows), logs[|old(logs)|], result)
              case Success(c) => ProxyReply(c, upstream, req, result)
    {
      var routed := RoutingCandidates(rows, req.model, hash, affinity);
      if routed.Failure? {
        RoutingRefuses(rows, req.model, hash, affinity);
        InsertLog(FailureRow(None, FromRouting(routed.error)));
        return Failure(FromRouting(routed.error));
      }
      result := TryInOrder(routed.value, req, upstream);
      RepliesAreTransparent(routed.value, upstream, req, req.model, result);
    }

    /** The body of the loop of `messages_inner`. */
    method TryAccountForMessages(row: KeyRow, x: Exchange, req: Request, conversionError: Option<ApiError>,
                                 convert: Value -> Result<Value, ApiError>) returns (step: Step)
      modifies this
      ensures step == MessagesStep(row, x, req, conversionError, convert)
      ensures Attempted(old(rows), old(logs), rows, logs, row, x, step)
    {
      if x.decryptError.Some? {
        InsertLog(FailureRow(Some(row), x.decryptError.value));
        return Fail(row, x.decryptError.value);
      }
      if conversionError.Some? {
        return Done(Failure(conversionError.value), None);
      }
      if x.clientError.Some? {
        InsertLog(FailureRow(Some(row), x.clientError.value));
        return Fail(row, x.clientError.value);
      }
      if x.sent.Unreachable? {
        InsertLog(FailureRow(Some(row), Upstream("upstream unreachable")));
        return Fail(row, Upstream("upstream unreachable"));
      }
      var status := x.sent.status;
      if !IsSuccess(status) {
        var body := x.sent.body.GetOr("");
        if IsQuotaError(status, body, req.parse) {
          MarkExhausted(row, x);
          var log := QuotaRow(row, req.model, status);
          InsertLog(log);
          return Next(Buffered(status, body), log);
        }
        var log := LogRow(Some(row.id), req.model, req.stream, status, NO_USAGE,
                          Some(ErrorMessage(body, req.parse).GetOr(req.statusText(status))));
        InsertLog(log);
        return Done(Success(Buffered(status, body)), Some(log));
      }
      if req.stream {
        var log := LogRow(Some(row.id), req.model, true, status, NO_USAGE, None);
        InsertLog(log);
        return Done(Success(Streaming(200)), Some(log));
      }
      if x.sent.body.None? || req.parse(x.sent.body.value).None? {
        return Done(Failure(Upstream("invalid upstream response")), None);
      }
      var value := req.parse(x.sent.body.value).value;
      var log := LogRow(Some(row.id), req.model, false, status, UsageFromJson(value).GetOr(NO_USAGE), None);
      InsertLog(log);
      var converted := convert(value);
      return Done(if converted.Success? then Success(Converted(converted.value)) else Failure(converted.error),
                  Some(log));
    }

    /** The loop of `messages_inner` over its candidates. `lastQuotaError.value` at the end is the source's `expect`. */
    method TryInOrderForMessages(candidates: seq<KeyRow>, req: Request, upstream: nat -> Exchange,
                                 conversionError: Option<ApiError>, convert: Value -> Result<Value, ApiError>)
      returns (result: Result<Response, ApiError>)
      requires candidates != []
      modifies this
      ensures Served(old(rows), old(logs), rows, logs, candidates, upstream,
                     MessagesSteps(candidates, upstream, req, conversionError, convert), req.model, result)
    {
      ghost var steps := MessagesSteps(candidates, upstream, req, conversionError, convert);
      var lastQuotaError: Option<Response> := None;
      for i := 0 to |candidates|
        invariant Looping(old(rows), old(logs), rows, logs, candidates, upstream, steps, i, lastQuotaError)
      {
        ghost var rows1, logs1 := rows, logs;
        var step := TryAccountForMessages(candidates[i], upstream(i), req, conversionError, convert);
        if step.Done? {
          SettledAt(old(rows), old(logs), rows1, logs1, rows, logs, candidates, upstream, steps, i,
                    lastQuotaError, req.model);
          return step.result;
        }
        OneMoreQuotaError(old(rows), old(logs), rows1, logs1, rows, logs, candidates, upstream, steps, i,
                          lastQuotaError);
        lastQuotaError := Some(step.reply);
      }
      SettledByExhaustion(old(rows), old(logs), rows, logs, candidates, upstream, steps, lastQuotaError, req.model);
      InsertLog(ExhaustedRow(candidates[|candidates| - 1], req.model, lastQuotaError.value));
      return Success(lastQuotaError.value);
    }

    /** `messages_inner` from routing on, for models without a native Messages endpoint. */
    method MessagesInner(hash: Hash, affinity: string, req: Request, conversionError: Option<ApiError>,
                         convert: Value -> Result<Value, ApiError>, upstream: nat -> Exchange)
      returns (result: Result<Response, ApiError>)
      modifies this
      ensures match RoutingCandidates(old(rows), req.model, hash, affinity)
              case Failure(e) =>
                && result == Failure(FromRouting(e)) && rows == old(rows)
                && logs == old(logs) + [FailureRow(None, FromRouting(e))]
              case Success(c) =>
                Served(old(rows), old(logs), rows, logs, c, upstream,
                       MessagesSteps(c, upstream, req, conversionError, convert), req.model, result)
      ensures match RoutingCandidates(old(rows), req.model, hash, affinity)
              case Failure(_) => |logs| == |old(logs)| + 1 && Refused(old(rows), logs[|old(logs)|], result)
              case Success(c) => MessagesReply(c, upstream, req, conversionError, convert, result)
    {
      var routed := RoutingCandidates(rows, req.model, hash, affinity);
      if routed.Failure? {
        RoutingRefuses(rows, req.model, hash, affinity);
        InsertLog(FailureRow(None, FromRouting(routed.error)));
        return Failure(FromRouting(routed.error));
      }
      result := TryInOrderForMessages(routed.value, req, upstream, conversionError, convert);
      MessagesRepliesAreFaithful(routed.value, upstream, req, conversionError, convert, req.model, result);
    }
  }
}
