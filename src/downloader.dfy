/**
  The pagination loop of internal/newsapi/downloader.go: fetch page after
  page, save each page as a JSON artifact, publish its path, and stop at the
  last page, on an API error, or when the context is cancelled.

  Everything outside the loop is an input (`Oracles`). The n-th fetch sees
  the n-th reply; the n-th save sees the n-th provider time and file-system
  result; the n-th publish sees the n-th publisher result. The context is
  observed at numbered checkpoints: the top of each iteration, the client's
  rate-limit wait, the downloader's rate-limit wait, and the delay between
  pages. Once it is done at one checkpoint it stays done, and a `select`
  that finds it done takes that branch.

  `Download` is the loop as a function of its state (`Run`); the method
  `NewsDownloader.DownloadAllNewsToFile` runs the loop in place and is
  proved to end in the state `Download` computes.
 */
module Downloader {
  import opened Wrappers
  import opened Decimal
  import opened TimeFormat
  import opened Models
  import opened Client
  import FileUtils
  import FilePath
  import Configuration

  // ---------------------------------------------------------------------
  // Page arithmetic

  /** Go's integer division, which truncates toward zero. */
  function GoDiv(a: int, b: int): int
    requires b != 0
  {
    if a >= 0 then (if b > 0 then a / b else -(a / -b))
    else (if b > 0 then -((-a) / b) else (-a) / (-b))
  }

  /** `(total + pageSize - 1) / pageSize`, the page count set after the first page. */
  function TotalPages(totalResults: int, pageSize: int): int
    requires pageSize >= 1
  {
    GoDiv(totalResults + pageSize - 1, pageSize)
  }

  /**
    For a non-negative result count the page count is the ceiling of
    total / pageSize: enough pages for every result, and no empty page.
   */
  lemma TotalPagesCeiling(total: int, pageSize: int)
    requires total >= 0 && pageSize >= 1
    ensures TotalPages(total, pageSize) >= 0
    ensures TotalPages(total, pageSize) * pageSize >= total
    ensures total > 0 ==> (TotalPages(total, pageSize) - 1) * pageSize < total
    ensures total == 0 ==> TotalPages(total, pageSize) == 0
  {
    var a := total + pageSize - 1;
    var q := a / pageSize;
    var r := a % pageSize;
    assert a == q * pageSize + r && 0 <= r < pageSize;
    assert TotalPages(total, pageSize) == q;
    assert q * pageSize >= total;
    if total == 0 {
      assert q == 0;
    }
  }

  /** 45 results at 20 per page are 3 pages; 40 are 2; none is 0. */
  lemma TotalPagesExamples()
    ensures TotalPages(45, 20) == 3 && TotalPages(40, 20) == 2 && TotalPages(0, 20) == 0
  {
  }

  // ---------------------------------------------------------------------
  // Saving and publishing one page

  /** What one save sees: the time the path generator's provider reports, and the file system's answers. */
  datatype SaveEnv = SaveEnv(now: Timestamp, mkdirErr: Option<string>, writeErr: Option<string>)

  /** How the output directory and file path of an artifact follow from the country, the page and the time. */
  type PathGenerator = (string, int, Timestamp) -> (string, string)

  /** `utils.GenerateJSONFilePath` over the configured output directory. */
  function ArtifactPaths(outputDir: string): PathGenerator {
    (country: string, page: int, t: Timestamp) => FileUtils.GenerateJSONFilePathWithTime(outputDir, country, page, t)
  }

  /**
    `savePageToFile`: the generated directory is created, then the generated
    path is written; a failure names the operation and the path it was about.
   */
  function SavePageToFile(paths: PathGenerator, country: string, page: int, env: SaveEnv): (r: Result<string, FileOperationError>)
    ensures r.Ok? <==> env.mkdirErr.None? && env.writeErr.None?
    ensures r.Ok? ==> r.value == paths(country, page, env.now).1
    ensures env.mkdirErr.Some? ==> r == Err(FileOperationError("create directory", paths(country, page, env.now).0, env.mkdirErr.value))
    ensures env.mkdirErr.None? && env.writeErr.Some? ==>
      r == Err(FileOperationError("write file", paths(country, page, env.now).1, env.writeErr.value))
  {
    var generated := paths(country, page, env.now);
    if env.mkdirErr.Some? then Err(FileOperationError("create directory", generated.0, env.mkdirErr.value))
    else if env.writeErr.Some? then Err(FileOperationError("write file", generated.1, env.writeErr.value))
    else Ok(generated.1)
  }

  /** Every path a save reports passes `ValidateFilePath` and lies in the month's directory. */
  lemma SavedPathIsValid(outputDir: string, country: string, page: int, env: SaveEnv)
    requires FilePath.NoSlash(country)
    requires SavePageToFile(ArtifactPaths(outputDir), country, page, env).Ok?
    ensures var path := SavePageToFile(ArtifactPaths(outputDir), country, page, env).value;
      var dir := FileUtils.GenerateJSONFilePathWithTime(outputDir, country, page, env.now).0;
      && FileUtils.ValidateFilePath(path).None?
      && path == dir + "/" + FileUtils.FileName(country, page, env.now)
  {
    FileUtils.GeneratedPathInDir(outputDir, country, page, env.now);
  }

  /** Why a publish failed: no publisher, or the publisher's error wrapped as a Kafka error. */
  datatype PublishError = PublisherMissing | PublishFailed(kafkaErr: KafkaError)
  {
    function Error(): (s: string)
      ensures PublisherMissing? ==> s == "Kafka publisher not initialized"
      ensures PublishFailed? ==> s == kafkaErr.Error()
    {
      match this
      case PublisherMissing => "Kafka publisher not initialized"
      case PublishFailed(e) => e.Error()
    }
  }

  /** The downloader's fixed settings: the client's base URL and delay, its artifact paths, and the Kafka configuration. */
  datatype Setup = Setup(baseURL: string, delaySeconds: int, paths: PathGenerator,
                         broker: string, topic: string, publisherPresent: bool)

  /** `publishFilePath`: no publisher is an error; a publisher's error is wrapped with the topic and broker. */
  function PublishFilePath(st: Setup, path: string, publishErr: Option<string>): (r: Option<PublishError>)
    ensures !st.publisherPresent ==> r == Some(PublisherMissing)
    ensures st.publisherPresent ==> (r.None? <==> publishErr.None?)
    ensures st.publisherPresent && publishErr.Some? ==>
      r == Some(PublishFailed(KafkaError("publish", st.topic, st.broker, publishErr.value)))
  {
    if !st.publisherPresent then Some(PublisherMissing)
    else if publishErr.Some? then Some(PublishFailed(KafkaError("publish", st.topic, st.broker, publishErr.value)))
    else None
  }

  // ---------------------------------------------------------------------
  // The loop's state

  /** An entry of `DownloadResult.Errors`. */
  datatype DownloadError =
    | PageError(page: int, cause: FetchOutcome)
    | SaveError(page: int, fileErr: FileOperationError)
    | PublishFailure(path: string, pubErr: PublishError)
  {
    /** The wrapped message: "page N: …", "failed to save page N: …" or "kafka publish for P: …". */
    function Error(): (s: string)
      ensures PageError? && cause.ErrorText().Some? ==> s == "page " + IntToString(page) + ": " + cause.ErrorText().value
      ensures SaveError? ==> s == "failed to save page " + IntToString(page) + ": " + fileErr.Error()
      ensures PublishFailure? ==> s == "kafka publish for " + path + ": " + pubErr.Error()
    {
      match this
      case PageError(p, c) => "page " + IntToString(p) + ": " + (var t := c.ErrorText(); if t.Some? then t.value else "")
      case SaveError(p, e) => "failed to save page " + IntToString(p) + ": " + e.Error()
      case PublishFailure(path, e) => "kafka publish for " + path + ": " + e.Error()
    }
  }

  /** Why a run returned early: cancellation, or an API error. */
  datatype Exit = Cancelled(message: string) | Aborted(message: string)

  /** What the run is driven by. */
  datatype Oracles = Oracles(
    fetch: nat -> FetchEnv,
    save: nat -> SaveEnv,
    publish: nat -> Option<string>,
    cancelAt: Option<nat>,
    cause: string)

  /** The context is done at checkpoint `k`. */
  predicate Done(o: Oracles, k: nat) {
    o.cancelAt.Some? && o.cancelAt.value <= k
  }

  /**
    The loop's state: its local variables, the fields of the result, the
    limiter, how many fetches, saves, publishes and checkpoints were used, the
    pages requested and the paths published, and how the run ended, if it did.
   */
  datatype Run = Run(
    page: int, totalPages: int, totalArticles: int,
    paths: seq<string>, pagesDownloaded: int, errors: seq<DownloadError>,
    limiter: RateLimitStatus,
    fetches: nat, saves: nat, publishes: nat, ticks: nat,
    requested: seq<int>, published: seq<string>,
    exit: Option<Exit>)

  /** The state before the first iteration: the start page, one page expected, nothing done. */
  function Start(req: DownloadRequest, limiter: RateLimitStatus): Run {
    Run(req.startPage, 1, 0, [], 0, [], limiter, 0, 0, 0, 0, [], [], None)
  }

  /** The error the run returns with. */
  function ExitError(s: Run): (e: Option<string>)
    ensures e.None? <==> s.exit.None?
  {
    match s.exit
    case None => None
    case Some(x) => Some(x.message)
  }

  /** A select that may find the context done: cancel with `message`, or go on. */
  function Checkpoint(o: Oracles, s: Run, message: string): (r: Run)
    ensures r == s.(ticks := s.ticks + 1, exit := if Done(o, s.ticks) then Some(Cancelled(message + o.cause)) else s.exit)
  {
    if Done(o, s.ticks) then s.(ticks := s.ticks + 1, exit := Some(Cancelled(message + o.cause)))
    else s.(ticks := s.ticks + 1)
  }

  /** The outcome of the fetch of the current page, and the limiter after it. */
  function FetchOf(o: Oracles, st: Setup, req: DownloadRequest, s: Run): (FetchOutcome, RateLimitStatus) {
    var ctxErr := if Done(o, s.ticks + 1) then Some(o.cause) else None;
    var r := FetchSpec(s.limiter, st.baseURL, st.delaySeconds, req, s.page, ctxErr, o.fetch(s.fetches));
    (r.0, r.1)
  }

  /** The state right after the fetch: the limiter updated, one fetch and two checkpoints used, the page requested. */
  function Fetching(o: Oracles, st: Setup, req: DownloadRequest, s: Run): Run {
    s.(limiter := FetchOf(o, st, req, s).1, fetches := s.fetches + 1, ticks := s.ticks + 2,
       requested := s.requested + [s.page])
  }

  /** One iteration of the loop. */
  function Step(o: Oracles, st: Setup, req: DownloadRequest, s: Run): Run
    requires ValidRequest(req)
  {
    if Done(o, s.ticks) then Checkpoint(o, s, "download cancelled: ")
    else AfterFetch(o, st, req, Fetching(o, st, req, s), FetchOf(o, st, req, s).0)
  }

  /**
    After the fetch: a rate-limit signal retries the same page after a wait;
    any other error is recorded, and an API error ends the run while the
    others skip the page; a page is saved.
   */
  function AfterFetch(o: Oracles, st: Setup, req: DownloadRequest, s: Run, out: FetchOutcome): Run
    requires ValidRequest(req)
  {
    match out
    case RateLimited(_, _) => Checkpoint(o, s, "download cancelled during rate limit wait: ")
    case Fetched(resp, _) =>
      AfterSave(o, st, req, s.(saves := s.saves + 1), resp, SavePageToFile(st.paths, req.country, s.page, o.save(s.saves)))
    case _ =>
      var s1 := s.(errors := s.errors + [PageError(s.page, out)]);
      if out.APIFailure? then
        s1.(exit := Some(Aborted("API error on page " + IntToString(s.page) + ": " + out.apiErr.Error())))
      else s1.(page := s.page + 1)
  }

  /**
    After the save: a failure is recorded and the page skipped; a saved page
    is counted and published (a publish failure is only recorded), the first
    page sets the totals, and a delay precedes the next page.
   */
  function AfterSave(o: Oracles, st: Setup, req: DownloadRequest, s: Run, resp: NewsAPIResponse,
                     saved: Result<string, FileOperationError>): Run
    requires ValidRequest(req)
  {
    match saved
    case Err(e) => s.(errors := s.errors + [SaveError(s.page, e)], page := s.page + 1)
    case Ok(path) =>
      var pub := PublishFilePath(st, path, o.publish(s.publishes));
      var s1 := s.(paths := s.paths + [path], pagesDownloaded := s.pagesDownloaded + 1,
                   publishes := if st.publisherPresent then s.publishes + 1 else s.publishes,
                   published := if st.publisherPresent then s.published + [path] else s.published,
                   errors := if pub.Some? then s.errors + [PublishFailure(path, pub.value)] else s.errors);
      NextPage(o, req, s1, resp)
  }

  /** After a counted page: the start page sets the totals, and a delay precedes the next page if there is one. */
  function NextPage(o: Oracles, req: DownloadRequest, s: Run, resp: NewsAPIResponse): Run
    requires ValidRequest(req)
  {
    var s2 := if s.page == req.startPage
      then s.(totalArticles := resp.totalResults, totalPages := TotalPages(resp.totalResults, req.pageSize))
      else s;
    var s3 := s2.(page := s.page + 1);
    if s3.page <= s3.totalPages then Checkpoint(o, s3, "download cancelled: ") else s3
  }

  /** The reply of fetch `i` is a 429. */
  predicate Is429(e: FetchEnv) {
    e.reply.Reply? && e.reply.status == 429
  }

  /** From fetch `n` on, no reply is a 429: the server stops asking to wait. */
  ghost predicate RateLimitsEnd(o: Oracles, n: nat) {
    forall i: nat :: n <= i ==> !Is429(o.fetch(i))
  }

  /** A rate-limit signal comes only from a reply with status 429. */
  lemma RateLimitedFrom429(o: Oracles, st: Setup, req: DownloadRequest, s: Run)
    requires FetchOf(o, st, req, s).0.RateLimited?
    ensures Is429(o.fetch(s.fetches))
  {
    var ctxErr := if Done(o, s.ticks + 1) then Some(o.cause) else None;
    FetchWaitCancelled(s.limiter, st.baseURL, st.delaySeconds, req, s.page, ctxErr, o.fetch(s.fetches));
  }

  /** What the part of an iteration after the fetch does to the page, the totals and the end. */
  lemma AfterFetchProgress(o: Oracles, st: Setup, req: DownloadRequest, s: Run, out: FetchOutcome)
    requires ValidRequest(req)
    ensures var s' := AfterFetch(o, st, req, s, out);
      && s.page <= s'.page <= s.page + 1
      && (s.page != req.startPage ==> s'.totalPages == s.totalPages)
      && s'.fetches == s.fetches
      && (s'.exit.None? && s'.page == s.page ==> s'.totalPages == s.totalPages && out.RateLimited?)
  {
    if out.Fetched? {
      var saved := SavePageToFile(st.paths, req.country, s.page, o.save(s.saves));
      if saved.Ok? {
        var s' := AfterFetch(o, st, req, s, out);
        assert s'.page == s.page + 1;
      }
    }
  }

  /**
    What an iteration does to the loop's measure: it ends the run, moves to
    a later page, or stays on the page with the same totals after a 429 reply.
   */
  lemma StepProgress(o: Oracles, st: Setup, req: DownloadRequest, s: Run)
    requires ValidRequest(req)
    ensures var s' := Step(o, st, req, s);
      && s.page <= s'.page <= s.page + 1
      && (s.page != req.startPage ==> s'.totalPages == s.totalPages)
      && (s'.exit.None? && s'.page == s.page ==>
            s'.totalPages == s.totalPages && s'.fetches == s.fetches + 1 && Is429(o.fetch(s.fetches)))
  {
    if !Done(o, s.ticks) {
      AfterFetchProgress(o, st, req, Fetching(o, st, req, s), FetchOf(o, st, req, s).0);
      if FetchOf(o, st, req, s).0.RateLimited? {
        RateLimitedFrom429(o, st, req, s);
      }
    }
  }

  /** The run from state `s` to its end. */
  ghost function Download(o: Oracles, st: Setup, req: DownloadRequest, s: Run, n: nat): Run
    requires ValidRequest(req) && RateLimitsEnd(o, n)
    decreases if s.exit.None? then 1 else 0,
              if s.page <= req.startPage then 1 else 0,
              if s.page <= s.totalPages then s.totalPages - s.page + 1 else 0,
              if s.fetches < n then n - s.fetches else 0
  {
    if s.exit.Some? || s.page > s.totalPages then s
    else
      StepProgress(o, st, req, s);
      Download(o, st, req, Step(o, st, req, s), n)
  }

  // ---------------------------------------------------------------------
  // What one iteration does

  /** A context already done at the top of the loop ends the run before any fetch. */
  lemma CancelledBeforeFetch(o: Oracles, st: Setup, req: DownloadRequest, s: Run)
    requires ValidRequest(req) && Done(o, s.ticks)
    ensures Step(o, st, req, s) == s.(ticks := s.ticks + 1, exit := Some(Cancelled("download cancelled: " + o.cause)))
  {
  }

  /** Otherwise the iteration fetches the current page and goes on with the outcome. */
  lemma StepFetches(o: Oracles, st: Setup, req: DownloadRequest, s: Run)
    requires ValidRequest(req) && !Done(o, s.ticks)
    ensures Step(o, st, req, s) == AfterFetch(o, st, req, Fetching(o, st, req, s), FetchOf(o, st, req, s).0)
    ensures Fetching(o, st, req, s).requested == s.requested + [s.page]
    ensures Fetching(o, st, req, s) == s.(limiter := FetchOf(o, st, req, s).1, fetches := s.fetches + 1,
                                         ticks := s.ticks + 2, requested := s.requested + [s.page])
  {
  }

  /**
    A rate-limit signal retries the same page: nothing is recorded, and the
    run ends only if the context is done during the wait.
   */
  lemma RateLimitRetriesPage(o: Oracles, st: Setup, req: DownloadRequest, s: Run, out: FetchOutcome)
    requires ValidRequest(req) && out.RateLimited?
    ensures var s' := AfterFetch(o, st, req, s, out);
      && s'.page == s.page && s'.totalPages == s.totalPages && s'.totalArticles == s.totalArticles
      && s'.paths == s.paths && s'.errors == s.errors && s'.pagesDownloaded == s.pagesDownloaded
      && s'.requested == s.requested && s'.fetches == s.fetches
      && s'.exit == if Done(o, s.ticks) then Some(Cancelled("download cancelled during rate limit wait: " + o.cause)) else s.exit
  {
  }

  /** An API error is recorded and ends the run on the current page. */
  lemma APIErrorRecorded(o: Oracles, st: Setup, req: DownloadRequest, s: Run, out: FetchOutcome)
    requires ValidRequest(req) && out.APIFailure?
    ensures var s' := AfterFetch(o, st, req, s, out);
      && s'.errors == s.errors + [PageError(s.page, out)]
      && s'.paths == s.paths && s'.page == s.page && s'.requested == s.requested
      && s'.exit == Some(Aborted("API error on page " + IntToString(s.page) + ": " + out.apiErr.Error()))
  {
  }

  /**
    An API error ends the run: the state after that iteration is where the
    run stops, so no later page is requested.
   */
  lemma APIErrorAborts(o: Oracles, st: Setup, req: DownloadRequest, s: Run, n: nat)
    requires ValidRequest(req) && RateLimitsEnd(o, n)
    requires s.exit.None? && s.page <= s.totalPages && !Done(o, s.ticks)
    requires FetchOf(o, st, req, s).0.APIFailure?
    ensures var f := Download(o, st, req, s, n);
      && f == Step(o, st, req, s)
      && f.exit.Some? && f.exit.value.Aborted?
      && f.requested == s.requested + [s.page]
  {
    StepFetches(o, st, req, s);
    APIErrorRecorded(o, st, req, Fetching(o, st, req, s), FetchOf(o, st, req, s).0);
    var s' := Step(o, st, req, s);
    assert s'.exit.Some?;
    assert Download(o, st, req, s, n) == Download(o, st, req, s', n);
  }

  /**
    Any other failed fetch (a cancelled limiter wait, a transport failure, a
    body that does not decode) is recorded and the page is skipped.
   */
  lemma FetchFailureSkipsPage(o: Oracles, st: Setup, req: DownloadRequest, s: Run, out: FetchOutcome)
    requires ValidRequest(req) && !out.Fetched? && !out.RateLimited? && !out.APIFailure?
    ensures var s' := AfterFetch(o, st, req, s, out);
      && s'.page == s.page + 1 && s'.exit == s.exit
      && s'.errors == s.errors + [PageError(s.page, out)]
      && s'.paths == s.paths && s'.pagesDownloaded == s.pagesDownloaded
      && s'.totalPages == s.totalPages && s'.totalArticles == s.totalArticles
  {
  }

  /** A page that was fetched but could not be saved is recorded and skipped; nothing is published. */
  lemma SaveFailureSkipsPage(o: Oracles, st: Setup, req: DownloadRequest, s: Run, out: FetchOutcome)
    requires ValidRequest(req) && out.Fetched?
    requires SavePageToFile(st.paths, req.country, s.page, o.save(s.saves)).Err?
    ensures var s' := AfterFetch(o, st, req, s, out);
      && s'.page == s.page + 1 && s'.exit == s.exit
      && s'.errors == s.errors + [SaveError(s.page, SavePageToFile(st.paths, req.country, s.page, o.save(s.saves)).error)]
      && s'.paths == s.paths && s'.pagesDownloaded == s.pagesDownloaded && s'.published == s.published
      && s'.totalPages == s.totalPages && s'.totalArticles == s.totalArticles
  {
  }

  /**
    A saved page is counted and its path recorded and published; a publish
    failure is only recorded. The start page sets the totals, any other
    page leaves them; the run ends only if the context is done during the
    delay before a next page.
   */
  lemma SavedPageRecorded(o: Oracles, st: Setup, req: DownloadRequest, s: Run, out: FetchOutcome)
    requires ValidRequest(req) && out.Fetched? && s.exit.None?
    requires SavePageToFile(st.paths, req.country, s.page, o.save(s.saves)).Ok?
    ensures var path := SavePageToFile(st.paths, req.country, s.page, o.save(s.saves)).value;
      var pub := PublishFilePath(st, path, o.publish(s.publishes));
      var s' := AfterFetch(o, st, req, s, out);
      && s'.page == s.page + 1
      && s'.paths == s.paths + [path] && s'.pagesDownloaded == s.pagesDownloaded + 1
      && s'.published == (if st.publisherPresent then s.published + [path] else s.published)
      && s'.errors == (if pub.Some? then s.errors + [PublishFailure(path, pub.value)] else s.errors)
      && (s.page == req.startPage ==>
            s'.totalArticles == out.resp.totalResults && s'.totalPages == TotalPages(out.resp.totalResults, req.pageSize))
      && (s.page != req.startPage ==> s'.totalArticles == s.totalArticles && s'.totalPages == s.totalPages)
      && (s'.exit.Some? <==> s'.page <= s'.totalPages && Done(o, s.ticks))
      && (s'.exit.Some? ==> s'.exit.value == Cancelled("download cancelled: " + o.cause))
  {
  }

  // ---------------------------------------------------------------------
  // What the whole run keeps

  /**
    The bookkeeping every iteration keeps: one counted page per recorded
    path, one request per fetch, and one publish per saved path when there
    is a publisher (none without).
   */
  predicate Consistent(st: Setup, s: Run) {
    && s.pagesDownloaded == |s.paths|
    && |s.requested| == s.fetches
    && s.published == (if st.publisherPresent then s.paths else [])
    && s.publishes == |s.published|
  }

  /** How a run can have ended: cancelled with one of the two messages, or aborted on the API error last recorded. */
  predicate ProperExit(o: Oracles, s: Run) {
    match s.exit
    case None => true
    case Some(Cancelled(m)) =>
      o.cancelAt.Some? && (m == "download cancelled: " + o.cause || m == "download cancelled during rate limit wait: " + o.cause)
    case Some(Aborted(m)) =>
      && |s.errors| > 0
      && var last := s.errors[|s.errors| - 1];
      && last.PageError? && last.cause.APIFailure?
      && m == "API error on page " + IntToString(last.page) + ": " + last.cause.apiErr.Error()
  }

  /** The run starts consistent and not ended. */
  lemma StartConsistent(o: Oracles, st: Setup, req: DownloadRequest, limiter: RateLimitStatus)
    ensures Consistent(st, Start(req, limiter)) && ProperExit(o, Start(req, limiter))
  {
  }

  /** The part after the fetch keeps the bookkeeping, only appends, and ends the run only properly. */
  lemma AfterFetchKeeps(o: Oracles, st: Setup, req: DownloadRequest, s: Run, out: FetchOutcome)
    requires ValidRequest(req) && Consistent(st, s) && s.exit.None?
    ensures var s' := AfterFetch(o, st, req, s, out);
      && Consistent(st, s') && ProperExit(o, s')
      && s.paths <= s'.paths && s.errors <= s'.errors && s.requested == s'.requested
  {
    var saved := SavePageToFile(st.paths, req.country, s.page, o.save(s.saves));
    if out.Fetched? && saved.Ok? {
      SavedPageKeeps(o, st, req, s, out);
    } else if out.APIFailure? {
      APIErrorRecorded(o, st, req, s, out);
    }
  }

  lemma SavedPageKeeps(o: Oracles, st: Setup, req: DownloadRequest, s: Run, out: FetchOutcome)
    requires ValidRequest(req) && Consistent(st, s) && s.exit.None? && out.Fetched?
    requires SavePageToFile(st.paths, req.country, s.page, o.save(s.saves)).Ok?
    ensures var s' := AfterFetch(o, st, req, s, out);
      && Consistent(st, s') && ProperExit(o, s')
      && s.paths <= s'.paths && s.errors <= s'.errors && s.requested == s'.requested
  {
    SavedPageRecorded(o, st, req, s, out);
  }

  /** One iteration keeps the bookkeeping, only appends, and ends the run only properly. */
  lemma StepKeeps(o: Oracles, st: Setup, req: DownloadRequest, s: Run)
    requires ValidRequest(req) && Consistent(st, s) && s.exit.None?
    ensures var s' := Step(o, st, req, s);
      && Consistent(st, s') && ProperExit(o, s')
      && s.paths <= s'.paths && s.errors <= s'.errors && s.requested <= s'.requested
  {
    if !Done(o, s.ticks) {
      StepFetches(o, st, req, s);
      AfterFetchKeeps(o, st, req, Fetching(o, st, req, s), FetchOf(o, st, req, s).0);
    }
  }

  /**
    The whole run keeps the bookkeeping, only appends to the paths, the
    errors and the requested pages, stops either because the pages ran out
    or because it ended, and ends only properly.
   */
  lemma {:induction false} DownloadKeeps(o: Oracles, st: Setup, req: DownloadRequest, s: Run, n: nat)
    requires ValidRequest(req) && RateLimitsEnd(o, n)
    requires Consistent(st, s) && ProperExit(o, s)
    ensures var f := Download(o, st, req, s, n);
      && Consistent(st, f) && ProperExit(o, f)
      && (f.exit.Some? || f.page > f.totalPages)
      && s.paths <= f.paths && s.errors <= f.errors && s.requested <= f.requested
      && (s.exit.Some? || s.page > s.totalPages ==> f == s)
    decreases if s.exit.None? then 1 else 0,
              if s.page <= req.startPage then 1 else 0,
              if s.page <= s.totalPages then s.totalPages - s.page + 1 else 0,
              if s.fetches < n then n - s.fetches else 0
  {
    if s.exit.None? && s.page <= s.totalPages {
      StepProgress(o, st, req, s);
      StepKeeps(o, st, req, s);
      DownloadKeeps(o, st, req, Step(o, st, req, s), n);
    }
  }

  /** With a start page past the first, the loop's guard fails at once: nothing is fetched. */
  lemma LaterStartPageFetchesNothing(o: Oracles, st: Setup, req: DownloadRequest, limiter: RateLimitStatus, n: nat)
    requires ValidRequest(req) && RateLimitsEnd(o, n) && req.startPage > 1
    ensures Download(o, st, req, Start(req, limiter), n) == Start(req, limiter)
  {
  }

  /** With start page 1 and a context not done at the start, page 1 is the first page requested. */
  lemma FirstPageRequested(o: Oracles, st: Setup, req: DownloadRequest, limiter: RateLimitStatus, n: nat)
    requires ValidRequest(req) && RateLimitsEnd(o, n) && req.startPage == 1 && !Done(o, 0)
    ensures var f := Download(o, st, req, Start(req, limiter), n);
      |f.requested| >= 1 && f.requested[0] == 1
  {
    var s := Start(req, limiter);
    var s' := Step(o, st, req, s);
    StepFetches(o, st, req, s);
    AfterFetchKeeps(o, st, req, Fetching(o, st, req, s), FetchOf(o, st, req, s).0);
    assert s'.requested == [1];
    StepKeeps(o, st, req, s);
    DownloadKeeps(o, st, req, s', n);
    assert Download(o, st, req, s, n) == Download(o, st, req, s', n);
  }

  // ---------------------------------------------------------------------
  // The downloader

  /** `DownloadResult`: what a run produced; times are Unix seconds, and the end time is zero until the run completes. */
  class DownloadResult {
    var totalArticles: int
    var pagesDownloaded: int
    var filePaths: seq<string>
    var startTime: int
    var endTime: int
    var duration: int
    var errors: seq<DownloadError>

    constructor (startTime: int)
      ensures this.startTime == startTime && endTime == ZeroInstant && duration == 0
      ensures totalArticles == 0 && pagesDownloaded == 0 && filePaths == [] && errors == []
    {
      this.startTime := startTime;
      endTime := ZeroInstant;
      duration := 0;
      totalArticles := 0;
      pagesDownloaded := 0;
      filePaths := [];
      errors := [];
    }
  }

  /** The loop's local variables, and how many fetches, saves, publishes and checkpoints it has used. */
  datatype Cursor = Cursor(page: int, totalPages: int, totalArticlesFound: int,
                           fetches: nat, saves: nat, publishes: nat, ticks: nat)

  /** The loop's state as `Run` sees it. */
  function Snapshot(c: Cursor, paths: seq<string>, pagesDownloaded: int, errors: seq<DownloadError>,
                    limiter: RateLimitStatus, requested: seq<int>, published: seq<string>, exit: Option<Exit>): Run
  {
    Run(c.page, c.totalPages, c.totalArticlesFound, paths, pagesDownloaded, errors,
        limiter, c.fetches, c.saves, c.publishes, c.ticks, requested, published, exit)
  }

  /** `NewsDownloader`: the client it fetches with, whether it has a publisher, and the configuration. */
  class NewsDownloader {
    const client: NewsAPIClient
    const publisherPresent: bool
    const cfg: Configuration.Config
    /** The artifact paths it saves to: `utils.GenerateJSONFilePath` over the configured output directory. */
    const paths: PathGenerator

    /** `NewNewsDownloader`. */
    constructor (client: NewsAPIClient, publisherPresent: bool, cfg: Configuration.Config)
      ensures this.client == client && this.publisherPresent == publisherPresent && this.cfg == cfg
      ensures paths == ArtifactPaths(cfg.outputDir)
    {
      this.client := client;
      this.publisherPresent := publisherPresent;
      this.cfg := cfg;
      paths := ArtifactPaths(cfg.outputDir);
    }

    function Settings(): Setup {
      Setup(client.baseURL, client.delaySeconds, paths, cfg.kafkaBroker, cfg.kafkaTopic, publisherPresent)
    }

    /**
      `DownloadAllNewsToFile`: an invalid request is refused before anything
      is fetched; otherwise the loop runs to the state `Download` computes,
      the result holds what it accumulated, and the error is the run's exit
      message (none when the loop ran out of pages, whatever was recorded in
      Errors). End time and duration are set only on that path. `n` bounds the
      fetches that can see a 429 reply.
     */
    method DownloadAllNewsToFile(req: DownloadRequest, o: Oracles, startClock: int, endClock: int, ghost n: nat)
      returns (result: DownloadResult?, err: Option<string>)
      requires RateLimitsEnd(o, n)
      modifies client.rateLimiter
      ensures Validate(req).Some? ==>
        && result == null
        && err == Some("invalid download request: " + Validate(req).value.Error())
        && client.rateLimiter.GetStatus() == old(client.rateLimiter.GetStatus())
      ensures Validate(req).None? ==>
        var f := Download(o, Settings(), req, Start(req, old(client.rateLimiter.GetStatus())), n);
        && result != null && fresh(result)
        && result.filePaths == f.paths && result.errors == f.errors
        && result.pagesDownloaded == f.pagesDownloaded && result.totalArticles == f.totalArticles
        && client.rateLimiter.GetStatus() == f.limiter
        && err == ExitError(f)
        && result.pagesDownloaded == |result.filePaths| && ProperExit(o, f)
        && (f.exit.None? ==> f.page > f.totalPages)
        && result.startTime == startClock
        && (f.exit.None? ==> result.endTime == endClock && result.duration == endClock - startClock)
        && (f.exit.Some? ==> result.endTime == ZeroInstant && result.duration == 0)
    {
      var invalid := Validate(req);
      if invalid.Some? {
        return null, Some("invalid download request: " + invalid.value.Error());
      }
      result := new DownloadResult(startClock);
      var c := Cursor(req.startPage, 1, 0, 0, 0, 0, 0);
      ghost var requested: seq<int> := [];
      ghost var published: seq<string> := [];
      ghost var st := Settings();
      ghost var s := Start(req, client.rateLimiter.GetStatus());
      ghost var final := Download(o, st, req, s, n);
      StartConsistent(o, st, req, s.limiter);
      DownloadKeeps(o, st, req, s, n);

      while c.page <= c.totalPages
        invariant fresh(result)
        invariant s == Snapshot(c, result.filePaths, result.pagesDownloaded, result.errors, client.rateLimiter.GetStatus(), requested, published, None)
        invariant result.totalArticles == c.totalArticlesFound
        invariant result.startTime == startClock && result.endTime == ZeroInstant && result.duration == 0
        invariant Download(o, st, req, s, n) == final
        decreases if c.page <= req.startPage then 1 else 0,
                  if c.page <= c.totalPages then c.totalPages - c.page + 1 else 0,
                  if c.fetches < n then n - c.fetches else 0
      {
        StepProgress(o, st, req, s);
        var exit;
        c, requested, published, exit := Iteration(req, o, result, c, requested, published);
        s := Step(o, st, req, s);
        if exit.Some? {
          return result, Some(exit.value.message);
        }
      }
      result.endTime := endClock;
      result.duration := endClock - startClock;
      err := None;
    }

    /**
      One pass of the loop's body: the cancellation check, the fetch, and
      what its outcome leads to.
     */
    method Iteration(req: DownloadRequest, o: Oracles, result: DownloadResult, c: Cursor,
                     ghost requested: seq<int>, ghost published: seq<string>)
      returns (c': Cursor, ghost requested': seq<int>, ghost published': seq<string>, exit: Option<Exit>)
      requires ValidRequest(req)
      requires result.totalArticles == c.totalArticlesFound
      modifies result, client.rateLimiter
      ensures Snapshot(c', result.filePaths, result.pagesDownloaded, result.errors, client.rateLimiter.GetStatus(), requested', published', exit)
        == Step(o, Settings(), req, old(Snapshot(c, result.filePaths, result.pagesDownloaded, result.errors, client.rateLimiter.GetStatus(), requested, published, None)))
      ensures result.totalArticles == c'.totalArticlesFound
      ensures result.startTime == old(result.startTime) && result.endTime == old(result.endTime)
      ensures result.duration == old(result.duration)
    {
      ghost var s := Snapshot(c, result.filePaths, result.pagesDownloaded, result.errors, client.rateLimiter.GetStatus(), requested, published, None);
      if Done(o, c.ticks) {
        return c.(ticks := c.ticks + 1), requested, published, Some(Cancelled("download cancelled: " + o.cause));
      }
      var ctxErr := if Done(o, c.ticks + 1) then Some(o.cause) else None;
      var outcome, _ := client.FetchNewsPage(req, c.page, ctxErr, o.fetch(c.fetches));
      c' := c.(fetches := c.fetches + 1, ticks := c.ticks + 2);
      requested' := requested + [c.page];
      published' := published;
      assert Snapshot(c', result.filePaths, result.pagesDownloaded, result.errors, client.rateLimiter.GetStatus(), requested', published', None)
        == Fetching(o, Settings(), req, s);
      c', published', exit := HandleOutcome(req, o, result, c', outcome, client.rateLimiter.GetStatus(), requested', published');
    }

    /**
      The body's part after the fetch: a rate-limit signal waits and retries
      the page, another failure is recorded (an API error ends the run, the
      others skip the page), and a fetched page is saved.
     */
    method HandleOutcome(req: DownloadRequest, o: Oracles, result: DownloadResult, c: Cursor, outcome: FetchOutcome,
                         ghost limiter: RateLimitStatus, ghost requested: seq<int>, ghost published: seq<string>)
      returns (c': Cursor, ghost published': seq<string>, exit: Option<Exit>)
      requires ValidRequest(req)
      requires result.totalArticles == c.totalArticlesFound
      modifies result
      ensures Snapshot(c', result.filePaths, result.pagesDownloaded, result.errors, limiter, requested, published', exit)
        == AfterFetch(o, Settings(), req, old(Snapshot(c, result.filePaths, result.pagesDownloaded, result.errors, limiter, requested, published, None)), outcome)
      ensures result.totalArticles == c'.totalArticlesFound
      ensures result.startTime == old(result.startTime) && result.endTime == old(result.endTime)
      ensures result.duration == old(result.duration)
    {
      published' := published;
      match outcome {
        case RateLimited(_, _) =>
          exit := if Done(o, c.ticks) then Some(Cancelled("download cancelled during rate limit wait: " + o.cause)) else None;
          c' := c.(ticks := c.ticks + 1);
        case Fetched(resp, _) =>
          var saved := SavePageToFile(paths, req.country, c.page, o.save(c.saves));
          c', published', exit := SaveAndPublish(req, o, result, c, resp, saved, limiter, requested, published);
        case _ =>
          c', exit := RecordFailure(req, o, result, c, outcome, limiter, requested, published);
      }
    }

    /** The body's part for a failed fetch: record it; an API error ends the run, any other skips the page. */
    method RecordFailure(req: DownloadRequest, o: Oracles, result: DownloadResult, c: Cursor, outcome: FetchOutcome,
                         ghost limiter: RateLimitStatus, ghost requested: seq<int>, ghost published: seq<string>)
      returns (c': Cursor, exit: Option<Exit>)
      requires ValidRequest(req) && !outcome.Fetched? && !outcome.RateLimited?
      modifies result
      ensures Snapshot(c', result.filePaths, result.pagesDownloaded, result.errors, limiter, requested, published, exit)
        == AfterFetch(o, Settings(), req, old(Snapshot(c, result.filePaths, result.pagesDownloaded, result.errors, limiter, requested, published, None)), outcome)
      ensures c'.totalArticlesFound == c.totalArticlesFound && result.totalArticles == old(result.totalArticles)
      ensures result.startTime == old(result.startTime) && result.endTime == old(result.endTime)
      ensures result.duration == old(result.duration)
    {
      result.errors := result.errors + [PageError(c.page, outcome)];
      if outcome.APIFailure? {
        return c, Some(Aborted("API error on page " + IntToString(c.page) + ": " + outcome.apiErr.Error()));
      }
      return c.(page := c.page + 1), None;
    }

    /**
      The body's part for a fetched page: save it (a failure is recorded and
      the page skipped), count it, publish its path (a failure is recorded),
      set the totals on the start page, and wait before the next page.
     */
    method SaveAndPublish(req: DownloadRequest, o: Oracles, result: DownloadResult, c: Cursor,
                          resp: NewsAPIResponse, saved: Result<string, FileOperationError>, ghost limiter: RateLimitStatus, ghost requested: seq<int>,
                          ghost published: seq<string>)
      returns (c': Cursor, ghost published': seq<string>, exit: Option<Exit>)
      requires ValidRequest(req)
      requires result.totalArticles == c.totalArticlesFound
      modifies result
      ensures Snapshot(c', result.filePaths, result.pagesDownloaded, result.errors, limiter, requested, published', exit)
        == AfterSave(o, Settings(), req, old(Snapshot(c, result.filePaths, result.pagesDownloaded, result.errors, limiter, requested, published, None)).(saves := c.saves + 1),
                     resp, saved)
      ensures result.totalArticles == c'.totalArticlesFound
      ensures result.startTime == old(result.startTime) && result.endTime == old(result.endTime)
      ensures result.duration == old(result.duration)
    {
      ghost var st := Settings();
      ghost var s0 := Snapshot(c, result.filePaths, result.pagesDownloaded, result.errors, limiter, requested, published, None).(saves := c.saves + 1);
      c' := c.(saves := c.saves + 1);
      published' := published;
      exit := None;
      if saved.Err? {
        result.errors := result.errors + [SaveError(c.page, saved.error)];
        c' := c'.(page := c.page + 1);
        assert Snapshot(c', result.filePaths, result.pagesDownloaded, result.errors, limiter, requested, published', exit)
          == s0.(errors := s0.errors + [SaveError(s0.page, saved.error)], page := s0.page + 1);
        return;
      }
      var filePath := saved.value;
      var publishErr := PublishFilePath(Settings(), filePath, o.publish(c.publishes));
      result.filePaths := result.filePaths + [filePath];
      result.pagesDownloaded := result.pagesDownloaded + 1;
      if publisherPresent {
        c' := c'.(publishes := c.publishes + 1);
        published' := published + [filePath];
      }
      if publishErr.Some? {
        result.errors := result.errors + [PublishFailure(filePath, publishErr.value)];
      }
      ghost var s1 := s0.(paths := s0.paths + [filePath], pagesDownloaded := s0.pagesDownloaded + 1,
                   publishes := if st.publisherPresent then s0.publishes + 1 else s0.publishes,
                   published := if st.publisherPresent then s0.published + [filePath] else s0.published,
                   errors := if publishErr.Some? then s0.errors + [PublishFailure(filePath, publishErr.value)] else s0.errors);
      assert Snapshot(c', result.filePaths, result.pagesDownloaded, result.errors, limiter, requested, published', exit) == s1;
      c', exit := AdvancePage(req, o, result, c', resp, limiter, requested, published');
    }

    /** The end of a saved page's iteration, as `NextPage` states it. */
    method AdvancePage(req: DownloadRequest, o: Oracles, result: DownloadResult, c: Cursor, resp: NewsAPIResponse,
                       ghost limiter: RateLimitStatus, ghost requested: seq<int>, ghost published: seq<string>)
      returns (c': Cursor, exit: Option<Exit>)
      requires ValidRequest(req)
      requires result.totalArticles == c.totalArticlesFound
      modifies result
      ensures Snapshot(c', result.filePaths, result.pagesDownloaded, result.errors, limiter, requested, published, exit)
        == NextPage(o, req, old(Snapshot(c, result.filePaths, result.pagesDownloaded, result.errors, limiter, requested, published, None)), resp)
      ensures result.totalArticles == c'.totalArticlesFound
      ensures result.startTime == old(result.startTime) && result.endTime == old(result.endTime)
      ensures result.duration == old(result.duration)
    {
      c' := c;
      exit := None;
      if c.page == req.startPage {
        c' := c'.(totalArticlesFound := resp.totalResults, totalPages := TotalPages(resp.totalResults, req.pageSize));
        result.totalArticles := resp.totalResults;
      }
      c' := c'.(page := c.page + 1);
      if c'.page <= c'.totalPages {
        if Done(o, c'.ticks) {
          exit := Some(Cancelled("download cancelled: " + o.cause));
        }
        c' := c'.(ticks := c'.ticks + 1);
      }
    }
  }
}
