/**
  The NewsAPI client (internal/newsapi/client.go): a rate limiter fed by
  response headers, the request URL, and the classification of one page
  fetch. HTTP is abstract: a reply is a status, headers (keyed by the name as
  the source spells it, with the first value) and a body that was read or not and that decodes as JSON or
  not. Time is integer Unix seconds; the clock readings, the context's
  cancellation and the reply are inputs.
 */
module Client {
  import opened Wrappers
  import opened Decimal
  import opened TimeFormat
  import opened Models
  import opened UrlQuery
  import Configuration

  type Headers = map<string, string>

  const LimitHeader: string := "X-RateLimit-Limit"
  const RemainingHeader: string := "X-RateLimit-Remaining"
  const ResetHeader: string := "X-RateLimit-Reset"

  /** `http.Header.Get`: the empty string for an absent header. */
  function HeaderGet(h: Headers, key: string): string {
    if key in h then h[key] else ""
  }

  /** A header's integer value, when it is present and `strconv.Atoi` accepts it. */
  function HeaderInt(h: Headers, key: string): Option<int> {
    var v := HeaderGet(h, key);
    if v == "" then None else Atoi(v)
  }

  function IntOr(o: Option<int>, current: int): int {
    if o.Some? then o.value else current
  }

  /** What `GetStatus` reports: calls remaining, the limit, and the reset instant. */
  datatype RateLimitStatus = RateLimitStatus(remaining: int, limit: int, resetTime: int)

  /**
    The effect of a reply's headers on the limiter: each field takes its
    header's value when the header is present and parses, and keeps its value
    otherwise.
   */
  function ApplyHeaders(s: RateLimitStatus, h: Headers): (r: RateLimitStatus)
    ensures HeaderInt(h, LimitHeader).None? ==> r.limit == s.limit
    ensures HeaderInt(h, LimitHeader).Some? ==> r.limit == HeaderInt(h, LimitHeader).value
    ensures HeaderInt(h, RemainingHeader).None? ==> r.remaining == s.remaining
    ensures HeaderInt(h, RemainingHeader).Some? ==> r.remaining == HeaderInt(h, RemainingHeader).value
    ensures HeaderInt(h, ResetHeader).None? ==> r.resetTime == s.resetTime
    ensures HeaderInt(h, ResetHeader).Some? ==> r.resetTime == HeaderInt(h, ResetHeader).value
  {
    RateLimitStatus(
      IntOr(HeaderInt(h, RemainingHeader), s.remaining),
      IntOr(HeaderInt(h, LimitHeader), s.limit),
      IntOr(HeaderInt(h, ResetHeader), s.resetTime))
  }

  /** `extractRateLimits`: the header values over a zero record (limit 0, remaining 0, the zero time). */
  function ExtractRateLimits(h: Headers): (l: NewsAPILimits)
    ensures var s := ApplyHeaders(RateLimitStatus(0, 0, ZeroInstant), h);
      l == NewsAPILimits(s.limit, s.remaining, s.resetTime)
  {
    NewsAPILimits(
      IntOr(HeaderInt(h, LimitHeader), 0),
      IntOr(HeaderInt(h, RemainingHeader), 0),
      IntOr(HeaderInt(h, ResetHeader), ZeroInstant))
  }

  /** Reading the same headers twice changes nothing more. */
  lemma ApplyHeadersIdempotent(s: RateLimitStatus, h: Headers)
    ensures ApplyHeaders(ApplyHeaders(s, h), h) == ApplyHeaders(s, h)
  {
  }

  /** A reply without rate-limit headers leaves the limiter as it was. */
  lemma ApplyHeadersNone(s: RateLimitStatus, h: Headers)
    requires LimitHeader !in h && RemainingHeader !in h && ResetHeader !in h
    ensures ApplyHeaders(s, h) == s
  {
  }

  /** After an update, the limiter agrees with the extracted limits on every header that parsed. */
  lemma ApplyHeadersAgreesWithExtract(s: RateLimitStatus, h: Headers)
    ensures HeaderInt(h, LimitHeader).Some? ==> ApplyHeaders(s, h).limit == ExtractRateLimits(h).limit
    ensures HeaderInt(h, RemainingHeader).Some? ==> ApplyHeaders(s, h).remaining == ExtractRateLimits(h).remaining
    ensures HeaderInt(h, ResetHeader).Some? ==> ApplyHeaders(s, h).resetTime == ExtractRateLimits(h).reset
  {
  }

  /** The headers a server writes for a status, as decimal text. */
  function StatusHeaders(t: RateLimitStatus): Headers {
    map[LimitHeader := IntToString(t.limit), RemainingHeader := IntToString(t.remaining),
        ResetHeader := IntToString(t.resetTime)]
  }

  /** Whatever the limiter held, headers carrying a status in the int64 range set it exactly. */
  lemma ApplyStatusHeaders(s: RateLimitStatus, t: RateLimitStatus)
    requires Int64Min <= t.limit <= Int64Max && Int64Min <= t.remaining <= Int64Max
    requires Int64Min <= t.resetTime <= Int64Max
    ensures ApplyHeaders(s, StatusHeaders(t)) == t
  {
    var h := StatusHeaders(t);
    assert LimitHeader != RemainingHeader && LimitHeader != ResetHeader && RemainingHeader != ResetHeader;
    assert HeaderGet(h, LimitHeader) == IntToString(t.limit);
    assert HeaderGet(h, RemainingHeader) == IntToString(t.remaining);
    assert HeaderGet(h, ResetHeader) == IntToString(t.resetTime);
    AtoiIntToString(t.limit);
    AtoiIntToString(t.remaining);
    AtoiIntToString(t.resetTime);
  }

  // ---------------------------------------------------------------------
  // Waiting

  /**
    How long `WaitIfNeeded` sleeps: nothing with more than 5 calls left or once
    the reset instant has passed; otherwise until one second after the reset.
   */
  function WaitPlan(remaining: int, resetTime: int, now: int): (d: Option<int>)
    ensures d.Some? <==> remaining <= 5 && now < resetTime
    ensures d.Some? ==> d.value >= 2 && now + d.value == resetTime + 1
  {
    if remaining > 10 then None
    else if remaining <= 5 && now < resetTime then Some(resetTime - now + 1)
    else None
  }

  /** The outcome of `WaitIfNeeded`: go on at once, go on after sleeping, or stop with the context's error. */
  datatype WaitResult = Proceed | Waited(seconds: int) | Interrupted(cause: string)

  /** `ctxErr` is the context's error when it is done before the sleep ends. */
  function WaitOutcome(remaining: int, resetTime: int, now: int, ctxErr: Option<string>): (w: WaitResult)
    ensures w.Interrupted? <==> WaitPlan(remaining, resetTime, now).Some? && ctxErr.Some?
    ensures w.Waited? ==> WaitPlan(remaining, resetTime, now) == Some(w.seconds)
    ensures w.Proceed? <==> WaitPlan(remaining, resetTime, now).None?
  {
    match WaitPlan(remaining, resetTime, now)
    case None => Proceed
    case Some(d) => if ctxErr.Some? then Interrupted(ctxErr.value) else Waited(d)
  }

  /** The three bands: above 10 and from 6 to 10 never wait; at 5 or fewer only before the reset. */
  lemma WaitBands(remaining: int, resetTime: int, now: int)
    ensures remaining > 10 ==> WaitPlan(remaining, resetTime, now).None?
    ensures 5 < remaining <= 10 ==> WaitPlan(remaining, resetTime, now).None?
    ensures remaining <= 5 && now >= resetTime ==> WaitPlan(remaining, resetTime, now).None?
    ensures remaining <= 5 && now < resetTime ==> WaitPlan(remaining, resetTime, now) == Some(resetTime - now + 1)
  {
  }

  /** A sleep ends past the reset instant, so the same limiter does not ask to sleep again. */
  lemma WaitResolves(remaining: int, resetTime: int, now: int)
    requires WaitPlan(remaining, resetTime, now).Some?
    ensures WaitPlan(remaining, resetTime, now + WaitPlan(remaining, resetTime, now).value).None?
  {
  }

  /** A limiter created at `created` has 1000 calls left and never makes its first caller wait. */
  lemma FreshLimiterNeverWaits(created: int, now: int)
    ensures WaitPlan(1000, created + 3600, now).None?
  {
  }

  /** `RateLimiter`: the calls left, the limit and the reset instant, as the last reply reported them. */
  class RateLimiter {
    var remaining: int
    var resetTime: int
    var limit: int

    /** `NewRateLimiter`: 1000 calls of 1000, resetting an hour from `now`. */
    constructor (now: int)
      ensures GetStatus() == RateLimitStatus(1000, 1000, now + 3600)
    {
      remaining := 1000;
      resetTime := now + 3600;
      limit := 1000;
    }

    function GetStatus(): RateLimitStatus
      reads this
    {
      RateLimitStatus(remaining, limit, resetTime)
    }

    /** `UpdateFromHeaders`: overwrite each field whose header is present and parses. */
    method UpdateFromHeaders(h: Headers)
      modifies this
      ensures GetStatus() == ApplyHeaders(old(GetStatus()), h)
    {
      var limitStr := HeaderGet(h, LimitHeader);
      if limitStr != "" {
        var parsed := Atoi(limitStr);
        if parsed.Some? {
          limit := parsed.value;
        }
      }
      var remainingStr := HeaderGet(h, RemainingHeader);
      if remainingStr != "" {
        var parsed := Atoi(remainingStr);
        if parsed.Some? {
          remaining := parsed.value;
        }
      }
      var resetStr := HeaderGet(h, ResetHeader);
      if resetStr != "" {
        var parsed := Atoi(resetStr);
        if parsed.Some? {
          resetTime := parsed.value;
        }
      }
    }

    /** `WaitIfNeeded` at time `now`; the limiter itself is not changed. */
    method WaitIfNeeded(now: int, ctxErr: Option<string>) returns (w: WaitResult)
      ensures w == WaitOutcome(remaining, resetTime, now, ctxErr)
    {
      var rem := remaining;
      var reset := resetTime;
      if rem > 10 {
        return Proceed;
      }
      if rem <= 5 && now < reset {
        var wait := reset - now + 1;
        if ctxErr.Some? {
          return Interrupted(ctxErr.value);
        }
        return Waited(wait);
      }
      return Proceed;
    }
  }

  // ---------------------------------------------------------------------
  // The request URL

  /** `params.Set(k, v)` when `cond` holds; the map unchanged otherwise. */
  function PutIf(m: map<string, string>, cond: bool, k: string, v: string): map<string, string> {
    if cond then m[k := v] else m
  }

  /** The parameter map over already formatted values; `from` and `to` are None for the zero time. */
  function ParamMap(q: string, country: string, language: string, sortBy: string, pageSize: string,
                    page: string, apiKey: string, from: Option<string>, to: Option<string>): map<string, string>
  {
    var m1 := PutIf(map[], q != "", "q", q);
    var m2 := PutIf(m1, country != "", "country", country);
    var m3 := PutIf(m2, language != "", "language", language);
    var m4 := PutIf(m3, sortBy != "", "sortBy", sortBy);
    var m5 := m4["pageSize" := pageSize]["page" := page]["apiKey" := apiKey];
    var m6 := if from.Some? then m5["from" := from.value] else m5;
    if to.Some? then m6["to" := to.value] else m6
  }

  /** The zero time is left out; any other time is written in the layout "2006-01-02T15:04:05Z". */
  function TimeParam(t: Timestamp): Option<string> {
    if IsZero(t) then None else Some(IsoStamp(t))
  }

  /**
    The query parameters `buildURL` adds: q, country, language and sortBy
    when not empty; pageSize, page and apiKey always; from and to when the
    time is not zero.
   */
  function QueryParams(req: DownloadRequest, page: int): (p: map<string, string>)
    ensures p.Keys <= set k | k in KeyOrder
  {
    ParamMapKeys(req.query, req.country, req.language, req.sortBy, IntToString(req.pageSize), IntToString(page),
                 req.apiKey, TimeParam(req.from), TimeParam(req.to));
    ParamMap(req.query, req.country, req.language, req.sortBy, IntToString(req.pageSize), IntToString(page),
             req.apiKey, TimeParam(req.from), TimeParam(req.to))
  }

  /** Every key the map carries is a request key. */
  lemma ParamMapKeys(q: string, country: string, language: string, sortBy: string, pageSize: string,
                     page: string, apiKey: string, from: Option<string>, to: Option<string>)
    ensures ParamMap(q, country, language, sortBy, pageSize, page, apiKey, from, to).Keys <= set k | k in KeyOrder
  {
    var p := ParamMap(q, country, language, sortBy, pageSize, page, apiKey, from, to);
    assert p.Keys <= {"q", "country", "language", "sortBy", "pageSize", "page", "apiKey", "from", "to"};
  }

  /** Which parameters the map carries, and with which values. */
  lemma ParamMapMembership(q: string, country: string, language: string, sortBy: string, pageSize: string,
                         page: string, apiKey: string, from: Option<string>, to: Option<string>)
    ensures var p := ParamMap(q, country, language, sortBy, pageSize, page, apiKey, from, to);
      && ("q" in p <==> q != "") && ("country" in p <==> country != "")
      && ("language" in p <==> language != "") && ("sortBy" in p <==> sortBy != "")
      && ("from" in p <==> from.Some?) && ("to" in p <==> to.Some?)
      && "pageSize" in p && "page" in p && "apiKey" in p
  {
    OptionalKeys(q, country, language, sortBy, pageSize, page, apiKey, from, to);
    FixedKeys(q, country, language, sortBy, pageSize, page, apiKey, from, to);
  }

  lemma OptionalKeys(q: string, country: string, language: string, sortBy: string, pageSize: string,
                         page: string, apiKey: string, from: Option<string>, to: Option<string>)
    ensures var p := ParamMap(q, country, language, sortBy, pageSize, page, apiKey, from, to);
      && ("q" in p <==> q != "") && ("country" in p <==> country != "")
      && ("language" in p <==> language != "") && ("sortBy" in p <==> sortBy != "")
  {
  }

  lemma FixedKeys(q: string, country: string, language: string, sortBy: string, pageSize: string,
                         page: string, apiKey: string, from: Option<string>, to: Option<string>)
    ensures var p := ParamMap(q, country, language, sortBy, pageSize, page, apiKey, from, to);
      && ("from" in p <==> from.Some?) && ("to" in p <==> to.Some?)
      && "pageSize" in p && "page" in p && "apiKey" in p
  {
  }

  lemma ParamMapValues(q: string, country: string, language: string, sortBy: string, pageSize: string,
                         page: string, apiKey: string, from: Option<string>, to: Option<string>)
    ensures var p := ParamMap(q, country, language, sortBy, pageSize, page, apiKey, from, to);
      && ("q" in p ==> p["q"] == q) && ("country" in p ==> p["country"] == country)
      && ("language" in p ==> p["language"] == language) && ("sortBy" in p ==> p["sortBy"] == sortBy)
      && p["pageSize"] == pageSize && p["page"] == page && p["apiKey"] == apiKey
      && ("from" in p ==> p["from"] == from.value) && ("to" in p ==> p["to"] == to.value)
  {
  }

  /** Which parameters a request carries, and with which values. */
  lemma QueryParamsContents(req: DownloadRequest, page: int)
    ensures var p := QueryParams(req, page);
      && ("q" in p <==> req.query != "")
      && ("country" in p <==> req.country != "")
      && ("language" in p <==> req.language != "")
      && ("sortBy" in p <==> req.sortBy != "")
      && ("from" in p <==> !IsZero(req.from))
      && ("to" in p <==> !IsZero(req.to))
      && "pageSize" in p && "page" in p && "apiKey" in p
    ensures var p := QueryParams(req, page);
      && ("q" in p ==> p["q"] == req.query)
      && ("country" in p ==> p["country"] == req.country)
      && ("language" in p ==> p["language"] == req.language)
      && ("sortBy" in p ==> p["sortBy"] == req.sortBy)
      && p["pageSize"] == IntToString(req.pageSize) && p["page"] == IntToString(page) && p["apiKey"] == req.apiKey
      && ("from" in p ==> p["from"] == IsoStamp(req.from))
      && ("to" in p ==> p["to"] == IsoStamp(req.to))
  {
    ParamMapMembership(req.query, req.country, req.language, req.sortBy, IntToString(req.pageSize), IntToString(page),
                     req.apiKey, TimeParam(req.from), TimeParam(req.to));
    ParamMapValues(req.query, req.country, req.language, req.sortBy, IntToString(req.pageSize), IntToString(page),
                     req.apiKey, TimeParam(req.from), TimeParam(req.to));
  }

  /** The URL requested for a page: the base URL, "?", and the encoded parameters. */
  function RequestURL(baseURL: string, req: DownloadRequest, page: int): string {
    baseURL + "?" + Encode(QueryParams(req, page))
  }

  // ---------------------------------------------------------------------
  // Classifying a reply

  /** A body as read: a read failure, or the raw text with its JSON decoding (the decoder's error when malformed). */
  datatype BodyRead = ReadError(cause: string) | Body(raw: string, decoded: Result<NewsAPIResponse, string>)

  /** What the transport returned: a failure, or a reply. */
  datatype HttpReply = TransportError(cause: string) | Reply(status: int, headers: Headers, body: BodyRead)

  /** The inputs one fetch sees: the clock before the wait, the reply, and the clock when the reply is examined. */
  datatype FetchEnv = FetchEnv(now: int, reply: HttpReply, replyTime: int)

  /** The outcome of `FetchNewsPage`: exactly one of these. */
  datatype FetchOutcome =
    | WaitCancelled(cause: string)
    | TransportFailed(cause: string)
    | RateLimited(rateErr: RateLimitError, limits: NewsAPILimits)
    | BodyReadFailed(cause: string, limits: NewsAPILimits)
    | APIFailure(apiErr: NewsAPIError, apiLimits: Option<NewsAPILimits>)
    | DecodeFailed(cause: string, limits: NewsAPILimits)
    | Fetched(resp: NewsAPIResponse, limits: NewsAPILimits)
  {
    /** The error's text, as `FetchNewsPage` wraps it; None on success. */
    function ErrorText(): (e: Option<string>)
      ensures e.None? <==> Fetched?
      ensures WaitCancelled? ==> e == Some("rate limit wait cancelled: " + cause)
      ensures TransportFailed? ==> e == Some("failed to make HTTP request: " + cause)
      ensures BodyReadFailed? ==> e == Some("failed to read response body: " + cause)
      ensures DecodeFailed? ==> e == Some("failed to unmarshal JSON response: " + cause)
      ensures RateLimited? ==> e == Some(rateErr.Error())
      ensures APIFailure? ==> e == Some(apiErr.Error())
    {
      match this
      case WaitCancelled(cause) => Some("rate limit wait cancelled: " + cause)
      case TransportFailed(cause) => Some("failed to make HTTP request: " + cause)
      case RateLimited(err, _) => Some(err.Error())
      case BodyReadFailed(cause, _) => Some("failed to read response body: " + cause)
      case APIFailure(err, _) => Some(err.Error())
      case DecodeFailed(cause, _) => Some("failed to unmarshal JSON response: " + cause)
      case Fetched(_, _) => None
    }
  }

  /**
    `handleErrorResponse`: an error carrying the HTTP status and the URL;
    its code and message come from a decoded error payload, and otherwise
    the message is "HTTP <status>: <body>" (malformed body) or "HTTP <status>".
   */
  function HandleErrorResponse(status: int, raw: string, decoded: Result<NewsAPIResponse, string>, url: string): (e: NewsAPIError)
    ensures e.statusCode == status && e.url == url
    ensures decoded.Err? ==> e.code == "" && e.message == "HTTP " + IntToString(status) + ": " + raw
    ensures decoded.Ok? && decoded.value.IsError() ==>
      e.code == decoded.value.code && e.message == decoded.value.message
    ensures decoded.Ok? && !decoded.value.IsError() ==> e.code == "" && e.message == "HTTP " + IntToString(status)
  {
    match decoded
    case Err(_) => NewsAPIError(status, "", "HTTP " + IntToString(status) + ": " + raw, url)
    case Ok(resp) =>
      match resp.ToError(status)
      case Some(err) => err.(url := url)
      case None => NewsAPIError(status, "", "HTTP " + IntToString(status), url)
  }

  /** How long a 429 reply asks to wait: until one second past a future reset, else the configured delay. */
  function RetryAfter(limits: NewsAPILimits, delaySeconds: int, now: int): int {
    if now < limits.reset then limits.reset - now + 1 else delaySeconds
  }

  /**
    The classification of a reply that arrived: 429 is a rate-limit signal
    (the body is not read); then a body read failure; then any other non-200
    status is an API error without limits; a 200 body that does not decode is
    a decode failure, one that reports an error is an API error with the URL,
    and anything else is the page.
   */
  function Classify(status: int, h: Headers, body: BodyRead, url: string, delaySeconds: int, now: int): (r: FetchOutcome)
    ensures r.RateLimited? <==> status == 429
    ensures r.RateLimited? ==>
      && r.limits == ExtractRateLimits(h)
      && r.rateErr.remainingCalls == ExtractRateLimits(h).remaining
      && r.rateErr.resetTime == ExtractRateLimits(h).reset
      && r.rateErr.retryAfter == RetryAfter(ExtractRateLimits(h), delaySeconds, now)
      && r.rateErr.Error() == RateLimitPrefix + DurationString(r.rateErr.retryAfter)
    ensures r.BodyReadFailed? <==> status != 429 && body.ReadError?
    ensures status != 429 && status != 200 && body.Body? ==>
      r == APIFailure(HandleErrorResponse(status, body.raw, body.decoded, url), None)
    ensures r.DecodeFailed? <==> status == 200 && body.Body? && body.decoded.Err?
    ensures status == 200 && body.Body? && body.decoded.Ok? && body.decoded.value.IsError() ==>
      r == APIFailure(NewsAPIError(200, body.decoded.value.code, body.decoded.value.message, url), Some(ExtractRateLimits(h)))
    ensures r.Fetched? <==> status == 200 && body.Body? && body.decoded.Ok? && !body.decoded.value.IsError()
    ensures r.Fetched? ==> r.resp == body.decoded.value && r.limits == ExtractRateLimits(h)
    ensures !r.WaitCancelled? && !r.TransportFailed?
  {
    var limits := ExtractRateLimits(h);
    if status == 429 then
      var retry := RetryAfter(limits, delaySeconds, now);
      RateLimited(RateLimitError(retry, limits.reset, limits.remaining, RateLimitPrefix + DurationString(retry)), limits)
    else match body
      case ReadError(cause) => BodyReadFailed(cause, limits)
      case Body(raw, decoded) =>
        if status != 200 then APIFailure(HandleErrorResponse(status, raw, decoded, url), None)
        else match decoded
          case Err(cause) => DecodeFailed(cause, limits)
          case Ok(resp) =>
            if resp.IsError() then APIFailure(resp.ToError(status).value.(url := url), Some(limits))
            else Fetched(resp, limits)
  }

  /**
    One `FetchNewsPage` as a function of the limiter's state: the outcome, the
    limiter afterwards, and the URL requested (None when nothing was sent).
   */
  function FetchSpec(s: RateLimitStatus, baseURL: string, delaySeconds: int, req: DownloadRequest, page: int,
                     ctxErr: Option<string>, env: FetchEnv): (FetchOutcome, RateLimitStatus, Option<string>)
  {
    match WaitOutcome(s.remaining, s.resetTime, env.now, ctxErr)
    case Interrupted(cause) => (WaitCancelled(cause), s, None)
    case _ =>
      var url := RequestURL(baseURL, req, page);
      match env.reply
      case TransportError(cause) => (TransportFailed(cause), s, Some(url))
      case Reply(status, h, body) => (Classify(status, h, body, url, delaySeconds, env.replyTime), ApplyHeaders(s, h), Some(url))
  }

  /** A cancelled wait sends nothing and leaves the limiter; it happens only when the limiter asked to wait. */
  lemma FetchWaitCancelled(s: RateLimitStatus, baseURL: string, delay: int, req: DownloadRequest, page: int,
                           ctxErr: Option<string>, env: FetchEnv)
    ensures var (out, s', sent) := FetchSpec(s, baseURL, delay, req, page, ctxErr, env);
      out.WaitCancelled? <==> WaitPlan(s.remaining, s.resetTime, env.now).Some? && ctxErr.Some?
    ensures var (out, s', sent) := FetchSpec(s, baseURL, delay, req, page, ctxErr, env);
      out.WaitCancelled? ==> sent.None? && s' == s
    ensures var (out, s', sent) := FetchSpec(s, baseURL, delay, req, page, ctxErr, env);
      !out.WaitCancelled? ==> sent == Some(RequestURL(baseURL, req, page))
  {
  }

  /** A transport failure leaves the limiter alone; every reply that arrives updates it, whatever its status. */
  lemma FetchUpdatesLimiter(s: RateLimitStatus, baseURL: string, delay: int, req: DownloadRequest, page: int,
                            ctxErr: Option<string>, env: FetchEnv)
    requires WaitOutcome(s.remaining, s.resetTime, env.now, ctxErr).Interrupted? == false
    ensures var (out, s', sent) := FetchSpec(s, baseURL, delay, req, page, ctxErr, env);
      env.reply.TransportError? ==> out == TransportFailed(env.reply.cause) && s' == s
    ensures var (out, s', sent) := FetchSpec(s, baseURL, delay, req, page, ctxErr, env);
      env.reply.Reply? ==> s' == ApplyHeaders(s, env.reply.headers)
  {
  }

  /** The client's fixed parts: the limiter it owns, the base URL and the configured delay. */
  class NewsAPIClient {
    const rateLimiter: RateLimiter
    const baseURL: string
    const delaySeconds: int
    const timeoutSeconds: int

    /** `NewNewsAPIClient`: a fresh limiter and the configuration's base URL, delay and timeout. */
    constructor (cfg: Configuration.Config, now: int)
      ensures fresh(rateLimiter)
      ensures rateLimiter.GetStatus() == RateLimitStatus(1000, 1000, now + 3600)
      ensures baseURL == cfg.baseURL && delaySeconds == cfg.defaultRateLimitDelaySeconds
      ensures timeoutSeconds == cfg.timeoutSeconds
    {
      rateLimiter := new RateLimiter(now);
      baseURL := cfg.baseURL;
      delaySeconds := cfg.defaultRateLimitDelaySeconds;
      timeoutSeconds := cfg.timeoutSeconds;
    }

    /** `buildURL`: the parameters are added one by one, then encoded after the base URL. */
    method BuildURL(req: DownloadRequest, page: int) returns (url: string)
      ensures url == RequestURL(baseURL, req, page)
    {
      var params: map<string, string> := map[];
      if req.query != "" {
        params := params["q" := req.query];
      }
      assert params == PutIf(map[], req.query != "", "q", req.query);
      ghost var m1 := params;
      if req.country != "" {
        params := params["country" := req.country];
      }
      assert params == PutIf(m1, req.country != "", "country", req.country);
      ghost var m2 := params;
      if req.language != "" {
        params := params["language" := req.language];
      }
      assert params == PutIf(m2, req.language != "", "language", req.language);
      ghost var m3 := params;
      if req.sortBy != "" {
        params := params["sortBy" := req.sortBy];
      }
      assert params == PutIf(m3, req.sortBy != "", "sortBy", req.sortBy);
      params := params["pageSize" := IntToString(req.pageSize)];
      params := params["page" := IntToString(page)];
      params := params["apiKey" := req.apiKey];
      ghost var m5 := params;
      var from := TimeParam(req.from);
      if !IsZero(req.from) {
        params := params["from" := IsoStamp(req.from)];
      }
      assert params == if from.Some? then m5["from" := from.value] else m5;
      ghost var m6 := params;
      var to := TimeParam(req.to);
      if !IsZero(req.to) {
        params := params["to" := IsoStamp(req.to)];
      }
      assert params == if to.Some? then m6["to" := to.value] else m6;
      assert params == QueryParams(req, page);
      url := baseURL + "?" + Encode(params);
    }

    /**
      `FetchNewsPage`: wait if the limiter asks, build the URL, send, update the
      limiter from any reply, and classify it.
     */
    method FetchNewsPage(req: DownloadRequest, page: int, ctxErr: Option<string>, env: FetchEnv)
      returns (outcome: FetchOutcome, sent: Option<string>)
      modifies rateLimiter
      ensures (outcome, rateLimiter.GetStatus(), sent)
        == FetchSpec(old(rateLimiter.GetStatus()), baseURL, delaySeconds, req, page, ctxErr, env)
    {
      var w := rateLimiter.WaitIfNeeded(env.now, ctxErr);
      if w.Interrupted? {
        return WaitCancelled(w.cause), None;
      }
      var url := BuildURL(req, page);
      sent := Some(url);
      match env.reply
      case TransportError(cause) =>
        outcome := TransportFailed(cause);
      case Reply(status, h, body) =>
        rateLimiter.UpdateFromHeaders(h);
        outcome := ClassifyReply(status, h, body, url, env.replyTime);
    }

    /** The part of `FetchNewsPage` after the limiter has read the reply's headers. */
    method ClassifyReply(status: int, h: Headers, body: BodyRead, url: string, now: int) returns (outcome: FetchOutcome)
      ensures outcome == Classify(status, h, body, url, delaySeconds, now)
    {
      var limits := ExtractRateLimits(h);
      if status == 429 {
        var retryAfter := delaySeconds;
        if now < limits.reset {
          retryAfter := limits.reset - now + 1;
        }
        assert retryAfter == RetryAfter(limits, delaySeconds, now);
        return RateLimited(RateLimitError(retryAfter, limits.reset, limits.remaining,
                                          RateLimitPrefix + DurationString(retryAfter)), limits);
      }
      match body
      case ReadError(cause) =>
        outcome := BodyReadFailed(cause, limits);
      case Body(raw, decoded) =>
        if status != 200 {
          return APIFailure(HandleErrorResponse(status, raw, decoded, url), None);
        }
        match decoded
        case Err(cause) =>
          outcome := DecodeFailed(cause, limits);
        case Ok(resp) =>
          if resp.IsError() {
            var apiErr := resp.ToError(status).value;
            outcome := APIFailure(apiErr.(url := url), Some(limits));
          } else {
            outcome := Fetched(resp, limits);
          }
    }
  }

  /**
    The rate-limit test's 429 reply: no calls remaining and a reset time
    (1698422400) that has already passed, so the retry delay stays the
    configured default of 60 seconds.
   */
  lemma RateLimitedExample(url: string, now: int)
    requires now >= 1698422400
    ensures var h := map[RemainingHeader := IntToString(0), ResetHeader := IntToString(1698422400)];
      var r := Classify(429, h, Body("", Err("unexpected end of JSON input")), url,
                        Configuration.DefaultConfig().defaultRateLimitDelaySeconds, now);
      && r.RateLimited? && r.rateErr.remainingCalls == 0 && r.limits.remaining == 0
      && r.rateErr.retryAfter == 60
  {
    var h := map[RemainingHeader := IntToString(0), ResetHeader := IntToString(1698422400)];
    assert RemainingHeader != ResetHeader && LimitHeader != ResetHeader && LimitHeader != RemainingHeader;
    assert HeaderGet(h, RemainingHeader) == IntToString(0);
    assert HeaderGet(h, ResetHeader) == IntToString(1698422400);
    AtoiIntToString(0);
    AtoiIntToString(1698422400);
  }

  /** A 429 reply whose reset lies ahead (not a case the tests send): the wait lasts until one second past it. */
  lemma FutureResetExample(url: string)
    ensures var h := map[RemainingHeader := IntToString(0), ResetHeader := IntToString(1100)];
      var r := Classify(429, h, Body("", Err("unexpected end of JSON input")), url, 60, 1000);
      r.RateLimited? && r.rateErr.remainingCalls == 0 && r.rateErr.retryAfter == 101
  {
    var h := map[RemainingHeader := IntToString(0), ResetHeader := IntToString(1100)];
    assert RemainingHeader != ResetHeader && LimitHeader != ResetHeader && LimitHeader != RemainingHeader;
    assert HeaderGet(h, RemainingHeader) == IntToString(0);
    assert HeaderGet(h, ResetHeader) == IntToString(1100);
    AtoiIntToString(0);
    AtoiIntToString(1100);
  }
}
