/**
  The NewsAPI request and response model (internal/newsapi/models.go): the
  download request and its validation, the response envelope and its error
  classification, and the error kinds with their messages.
 */
module Models {
  import opened Wrappers
  import opened Decimal
  import opened TimeFormat

  datatype Source = Source(id: string, name: string)

  datatype Article = Article(
    source: Source, author: string, title: string, description: string,
    url: string, urlToImage: string, publishedAt: Timestamp, content: string)

  /** The top-level JSON envelope NewsAPI answers with. */
  datatype NewsAPIResponse = NewsAPIResponse(
    status: string, totalResults: int, articles: seq<Article>, code: string, message: string)
  {
    /** `IsEmpty`: the response carries no article. */
    function IsEmpty(): (empty: bool)
      ensures empty <==> articles == []
    {
      |articles| == 0
    }

    /** `IsError`: the body reports an error although it was delivered; only status "ok" without a code is a success. */
    function IsError(): (failed: bool)
      ensures !failed <==> status == "ok" && code == ""
    {
      status != "ok" || code != ""
    }

    /** `ToError`: no error for a successful body, otherwise an API error with the given HTTP status. */
    function ToError(statusCode: int): (r: Option<NewsAPIError>)
      ensures r.None? <==> !IsError()
      ensures r.Some? ==> r.value == NewsAPIError(statusCode, code, message, "")
    {
      if !IsError() then None
      else Some(NewsAPIError(statusCode, code, message, ""))
    }
  }

  /** Rate-limit information carried by response headers; `reset` is in Unix seconds. */
  datatype NewsAPILimits = NewsAPILimits(limit: int, remaining: int, reset: int)

  /** A request to download every page of a query; `from` and `to` are zero when unset. */
  datatype DownloadRequest = DownloadRequest(
    apiKey: string, query: string, country: string, from: Timestamp, to: Timestamp,
    language: string, sortBy: string, pageSize: int, startPage: int)

  datatype ValidationError = ValidationError(field: string, message: string)
  {
    function Error(): (s: string)
      ensures |s| == |ValidationPrefix| + |field| + 3 + |message|
      ensures s[..|ValidationPrefix|] == ValidationPrefix
      ensures s[|ValidationPrefix|..|ValidationPrefix| + |field|] == field
      ensures s[|ValidationPrefix| + |field|..|ValidationPrefix| + |field| + 3] == "': "
      ensures s[|s| - |message|..] == message
    {
      var s := ValidationPrefix + field + "': " + message;
      assert s[|ValidationPrefix|..|ValidationPrefix| + |field|] == field;
      assert s[|ValidationPrefix| + |field|..|ValidationPrefix| + |field| + 3] == "': ";
      assert s[|s| - |message|..] == message;
      s
    }
  }

  const ValidationPrefix: string := "validation error for field '"

  /** An error reported by NewsAPI: the HTTP status, the API's error code and message, and the request URL. */
  datatype NewsAPIError = NewsAPIError(statusCode: int, code: string, message: string, url: string)
  {
    /** The message names code and message only when both are present. */
    function Error(): (s: string)
      ensures code != "" && message != "" ==>
        s == APIErrorPrefix + IntToString(statusCode) + ": " + code + " - " + message
      ensures code == "" || message == "" ==> s == APIErrorPrefix + IntToString(statusCode)
    {
      if code != "" && message != "" then
        APIErrorPrefix + IntToString(statusCode) + ": " + code + " - " + message
      else APIErrorPrefix + IntToString(statusCode)
    }
  }

  const APIErrorPrefix: string := "NewsAPI error "

  /** A rate-limit signal: how long to wait (whole seconds), the reset instant and the calls left. */
  datatype RateLimitError = RateLimitError(retryAfter: int, resetTime: int, remainingCalls: int, message: string)
  {
    function Error(): (s: string)
      ensures message != "" ==> s == message
      ensures message == "" ==> s == RateLimitPrefix + DurationString(retryAfter)
    {
      if message != "" then message else RateLimitPrefix + DurationString(retryAfter)
    }
  }

  const RateLimitPrefix: string := "rate limit exceeded, retry after "

  /** A failed file operation; the cause is kept as its message. */
  datatype FileOperationError = FileOperationError(operation: string, filePath: string, cause: string)
  {
    /** "file operation '<operation>' failed for '<path>': <cause>", each part found at its place. */
    function Error(): (s: string)
      ensures |s| == |FileOpPrefix| + |operation| + |FailedFor| + |filePath| + |CauseSep| + |cause|
      ensures s[..|FileOpPrefix|] == FileOpPrefix
      ensures var i := |FileOpPrefix|; s[i..i + |operation|] == operation
      ensures var i := |FileOpPrefix| + |operation|; s[i..i + |FailedFor|] == FailedFor
      ensures var i := |FileOpPrefix| + |operation| + |FailedFor|; s[i..i + |filePath|] == filePath
      ensures s[|s| - |cause| - |CauseSep|..|s| - |cause|] == CauseSep
      ensures s[|s| - |cause|..] == cause
    {
      var a := FileOpPrefix + operation;
      var b := a + FailedFor + filePath;
      var s := b + CauseSep + cause;
      assert s[..|b|] == b && b[..|a|] == a;
      assert s[..|FileOpPrefix|] == a[..|FileOpPrefix|];
      s
    }
  }

  const FileOpPrefix: string := "file operation '"
  const FailedFor: string := "' failed for '"
  const CauseSep: string := "': "

  /** A failed Kafka operation; the cause is kept as its message. */
  datatype KafkaError = KafkaError(operation: string, topic: string, broker: string, cause: string)
  {
    /** "kafka operation '<operation>' failed for topic '<topic>' on broker '<broker>': <cause>", each part at its place. */
    function Error(): (s: string)
      ensures |s| == |KafkaOpPrefix| + |operation| + |ForTopic| + |topic| + |OnBroker| + |broker| + |CauseSep| + |cause|
      ensures s[..|KafkaOpPrefix|] == KafkaOpPrefix
      ensures var i := |KafkaOpPrefix|; s[i..i + |operation|] == operation
      ensures var i := |KafkaOpPrefix| + |operation|; s[i..i + |ForTopic|] == ForTopic
      ensures var i := |KafkaOpPrefix| + |operation| + |ForTopic|; s[i..i + |topic|] == topic
      ensures var i := |KafkaOpPrefix| + |operation| + |ForTopic| + |topic|; s[i..i + |OnBroker|] == OnBroker
      ensures var i := |KafkaOpPrefix| + |operation| + |ForTopic| + |topic| + |OnBroker|; s[i..i + |broker|] == broker
      ensures s[|s| - |cause| - |CauseSep|..|s| - |cause|] == CauseSep
      ensures s[|s| - |cause|..] == cause
    {
      var a := KafkaOpPrefix + operation;
      var b := a + ForTopic + topic;
      var c := b + OnBroker + broker;
      var s := c + CauseSep + cause;
      assert s[..|c|] == c && c[..|b|] == b && b[..|a|] == a;
      assert s[..|KafkaOpPrefix|] == a[..|KafkaOpPrefix|];
      s
    }
  }

  const KafkaOpPrefix: string := "kafka operation '"
  const ForTopic: string := "' failed for topic '"
  const OnBroker: string := "' on broker '"

  // ---------------------------------------------------------------------
  // Request validation

  const SortByValues: set<string> := {"relevancy", "popularity", "publishedAt"}

  predicate ApiKeyOk(r: DownloadRequest) { r.apiKey != "" }
  predicate TargetOk(r: DownloadRequest) { r.country != "" || r.query != "" }
  predicate PageSizeOk(r: DownloadRequest) { 1 <= r.pageSize <= 100 }
  predicate StartPageOk(r: DownloadRequest) { r.startPage >= 1 }
  predicate SortByOk(r: DownloadRequest) { r.sortBy == "" || r.sortBy in SortByValues }

  /** Every field rule a request must meet. */
  predicate ValidRequest(r: DownloadRequest) {
    ApiKeyOk(r) && TargetOk(r) && PageSizeOk(r) && StartPageOk(r) && SortByOk(r)
  }

  const ApiKeyError := ValidationError("api_key", "cannot be empty")
  const TargetError := ValidationError("country/query", "either country or query must be specified")
  const PageSizeError := ValidationError("page_size", "must be between 1 and 100")
  const StartPageError := ValidationError("start_page", "must be >= 1")
  const SortByError := ValidationError("sort_by", "must be one of: relevancy, popularity, publishedAt")

  /**
    `DownloadRequest.Validate`: no error exactly for a valid request; otherwise
    the error of the first rule broken, in the order api_key, country/query,
    page_size, start_page, sort_by.
   */
  function Validate(r: DownloadRequest): (e: Option<ValidationError>)
    ensures e.None? <==> ValidRequest(r)
    ensures e == Some(ApiKeyError) <==> !ApiKeyOk(r)
    ensures e == Some(TargetError) <==> ApiKeyOk(r) && !TargetOk(r)
    ensures e == Some(PageSizeError) <==> ApiKeyOk(r) && TargetOk(r) && !PageSizeOk(r)
    ensures e == Some(StartPageError) <==> ApiKeyOk(r) && TargetOk(r) && PageSizeOk(r) && !StartPageOk(r)
    ensures e == Some(SortByError) <==> ApiKeyOk(r) && TargetOk(r) && PageSizeOk(r) && StartPageOk(r) && !SortByOk(r)
  {
    if r.apiKey == "" then Some(ApiKeyError)
    else if r.country == "" && r.query == "" then Some(TargetError)
    else if r.pageSize <= 0 || r.pageSize > 100 then Some(PageSizeError)
    else if r.startPage < 1 then Some(StartPageError)
    else if r.sortBy != "" && r.sortBy !in SortByValues then Some(SortByError)
    else None
  }

  /** `NewDownloadRequest`: the key and country given, 20 articles a page from page 1, newest first. */
  function NewDownloadRequest(apiKey: string, country: string): (r: DownloadRequest)
    ensures r.apiKey == apiKey && r.country == country
    ensures r.pageSize == 20 && r.startPage == 1 && r.sortBy == "publishedAt"
    ensures r.query == "" && r.language == "" && IsZero(r.from) && IsZero(r.to)
  {
    DownloadRequest(apiKey, "", country, ZeroTime, ZeroTime, "", "publishedAt", 20, 1)
  }

  /** A default request validates exactly when both the key and the country are given. */
  lemma NewDownloadRequestValid(apiKey: string, country: string)
    ensures Validate(NewDownloadRequest(apiKey, country)).None? <==> apiKey != "" && country != ""
  {
    assert "publishedAt" in SortByValues;
  }

  /** The checks of the request-validation tests. */
  lemma ValidateExamples()
    ensures Validate(DownloadRequest("test-api-key", "", "us", ZeroTime, ZeroTime, "", "publishedAt", 20, 1)).None?
    ensures Validate(DownloadRequest("test-api-key", "technology", "", ZeroTime, ZeroTime, "", "relevancy", 50, 1)).None?
    ensures Validate(DownloadRequest("test-api-key", "AI", "uk", ZeroTime, ZeroTime, "", "popularity", 100, 1)).None?
    ensures Validate(DownloadRequest("", "", "us", ZeroTime, ZeroTime, "", "", 20, 1)).value.field == "api_key"
    ensures Validate(DownloadRequest("test-api-key", "", "", ZeroTime, ZeroTime, "", "", 20, 1)).value.field == "country/query"
    ensures Validate(DownloadRequest("test-api-key", "", "us", ZeroTime, ZeroTime, "", "", 150, 1)).value.field == "page_size"
    ensures Validate(DownloadRequest("test-api-key", "", "us", ZeroTime, ZeroTime, "", "", 20, 0)).value.field == "start_page"
    ensures Validate(DownloadRequest("test-api-key", "", "us", ZeroTime, ZeroTime, "", "invalid_sort", 20, 1)).value.field == "sort_by"
  {
    assert "publishedAt" in SortByValues && "relevancy" in SortByValues && "popularity" in SortByValues;
    assert "invalid_sort" != "relevancy" && "invalid_sort" != "popularity" && "invalid_sort" != "publishedAt";
  }

  // ---------------------------------------------------------------------
  // Error messages

  /** The status code can be read back from a short API error message. */
  lemma APIErrorStatusReadBack(e: NewsAPIError)
    requires e.code == "" || e.message == ""
    requires Int64Min <= e.statusCode <= Int64Max
    ensures Atoi(e.Error()[|APIErrorPrefix|..]) == Some(e.statusCode)
  {
    var s := e.Error();
    assert s[|APIErrorPrefix|..] == IntToString(e.statusCode);
    AtoiIntToString(e.statusCode);
  }

  /** Every API error message starts with "NewsAPI error " and the status. */
  lemma APIErrorPrefixed(e: NewsAPIError)
    ensures var p := APIErrorPrefix + IntToString(e.statusCode);
      |p| <= |e.Error()| && e.Error()[..|p|] == p
  {
    var p := APIErrorPrefix + IntToString(e.statusCode);
    if e.code != "" && e.message != "" {
      var s := p + (": " + e.code + " - " + e.message);
      assert e.Error() == s;
      assert s[..|p|] == p;
    }
  }

  /** The renderings the error-message tests expect. */
  lemma APIErrorExamples()
    ensures NewsAPIError(401, "apiKeyInvalid", "Your API key is invalid", "").Error()
      == "NewsAPI error 401: apiKeyInvalid - Your API key is invalid"
    ensures NewsAPIError(500, "", "", "").Error() == "NewsAPI error 500"
    ensures NewsAPIError(429, "rateLimited", "", "").Error() == "NewsAPI error 429"
    ensures NewsAPIError(404, "", "Not found", "").Error() == "NewsAPI error 404"
  {
    ThreeDigits(401, 4, 0, 1);
    APIErrorText();
    ShortAPIErrorExample(NewsAPIError(500, "", "", ""), 5, 0, 0);
    ShortAPIErrorExample(NewsAPIError(429, "rateLimited", "", ""), 4, 2, 9);
    ShortAPIErrorExample(NewsAPIError(404, "", "Not found", ""), 4, 0, 4);
  }

  lemma ShortAPIErrorExample(e: NewsAPIError, a: nat, b: nat, c: nat)
    requires e.code == "" || e.message == ""
    requires 1 <= a < 10 && b < 10 && c < 10 && e.statusCode == 100 * a + 10 * b + c
    ensures e.Error() == "NewsAPI error " + [DigitChar(a), DigitChar(b), DigitChar(c)]
  {
    ThreeDigits(e.statusCode, a, b, c);
  }

  lemma APIErrorText()
    ensures "NewsAPI error " + "401" + ": " + "apiKeyInvalid" + " - " + "Your API key is invalid"
      == "NewsAPI error 401: apiKeyInvalid - Your API key is invalid"
  {
    assert "NewsAPI error " + "401" == "NewsAPI error 401";
    assert "NewsAPI error 401" + ": " == "NewsAPI error 401: ";
    assert "NewsAPI error 401: " + "apiKeyInvalid" == "NewsAPI error 401: apiKeyInvalid";
    assert "NewsAPI error 401: apiKeyInvalid" + " - " == "NewsAPI error 401: apiKeyInvalid - ";
  }

  lemma RateLimitErrorExamples()
    ensures RateLimitError(60, 0, 0, "Custom rate limit message").Error() == "Custom rate limit message"
    ensures RateLimitError(30, 0, 0, "").Error() == "rate limit exceeded, retry after 30s"
    ensures RateLimitError(0, 0, 0, "").Error() == "rate limit exceeded, retry after 0s"
  {
    DurationExamples();
  }

  lemma ValidationErrorExample()
    ensures ValidationError("api_key", "cannot be empty").Error()
      == "validation error for field 'api_key': cannot be empty"
  {
  }

  /**
    The response checks the tests expect: emptiness is about the articles
    only; a body is an error when its status is not "ok" or it has a code;
    a failing body becomes an error carrying the status, a successful one none.
   */
  lemma ResponseExamples(a: Article)
    ensures !NewsAPIResponse("ok", 1, [a], "", "").IsEmpty()
    ensures NewsAPIResponse("ok", 0, [], "", "").IsEmpty()
    ensures !NewsAPIResponse("ok", 0, [], "", "").IsError()
    ensures NewsAPIResponse("error", 0, [], "apiKeyInvalid", "").IsError()
    ensures NewsAPIResponse("ok", 0, [], "someCode", "").IsError()
    ensures NewsAPIResponse("error", 0, [], "", "").IsError()
    ensures NewsAPIResponse("ok", 10, [], "", "").ToError(200).None?
    ensures NewsAPIResponse("error", 0, [], "apiKeyInvalid", "Your API key is invalid").ToError(401)
      == Some(NewsAPIError(401, "apiKeyInvalid", "Your API key is invalid", ""))
    ensures NewsAPIResponse("ok", 0, [], "rateLimited", "Too many requests").ToError(429)
      == Some(NewsAPIError(429, "rateLimited", "Too many requests", ""))
  {
  }
}
