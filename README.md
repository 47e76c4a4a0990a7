# go-news-agg in Dafny

A verified model of the core of go-news-agg. go-news-agg is a Go service that downloads every page of a NewsAPI
query, saves each page as a JSON artifact under a dated directory, and publishes the artifact's path
to a Kafka topic. The model covers six parts:

- **The request and response model** (`Models`): request validation, response classification and
  the error kinds with their messages.
- **The NewsAPI client** (`Client`, with `UrlQuery` for the query string): the rate limiter fed by
  response headers and its wait decision, the request URL, and the classification of one page fetch
  into exactly one outcome.
- **The pagination loop** (`Downloader`): `NewsDownloader.DownloadAllNewsToFile` runs in place over
  a `DownloadResult`. It is proved to end in the state that a functional specification of the loop
  (`Download`, iterating `Step`) computes. Lemmas state what one iteration does for each outcome and
  what the whole run keeps.
- **The configuration** (`Configuration`): the defaults, validation, environment overrides, the
  overlay of a configuration file on the defaults, and the guard in front of saving.
- **Artifact paths** (`FileUtils`, with `FilePath` for Go's `filepath.Clean`/`Join` and
  `TimeFormat`/`Decimal` for the layouts and integers the paths print): path generation, the time
  providers, and path validation.
- **The Kafka publisher** (`KafkaProducer`): the `closed`-flag state machine, the guards in front of
  publishing, the three-way wait for a delivery report, and `PublishToKafka`'s
  create-publish-close sequence.

Everything the Go code gets from the outside world is an input to the model:

- Instants are integer Unix seconds. Formatted times are broken-down `Timestamp` records.
- An HTTP reply is a status, a header map and a body that was read or not and that decodes or not.
- The environment is a map.
- A configuration file arrives already decoded.
- File-system and broker results are parameters.

In the loop, the n-th fetch, save and publish see the n-th entry of an oracle. The context is
observed at numbered checkpoints. Once it is done it stays done, and a `select` that finds it done
takes that branch.

The loop's rate-limit retries are unbounded in the source. Termination is therefore proved under
`RateLimitsEnd(o, n)`: from fetch `n` on, no reply is a 429.

With a start page after 1, `totalPages` starts at 1 and the loop body never runs
(internal/newsapi/downloader.go:65-72); `Downloader.LaterStartPageFetchesNothing` states this.

## Model

| member | source | states |
|---|---|---|
| Models.Validate | internal/newsapi/models.go:139-167 | no error exactly when the request meets every rule (key, country or query, page size 1..100, start page >= 1, sort order); otherwise the error of the first rule broken, in the source's order |
| Models.NewDownloadRequest | internal/newsapi/models.go:170-178 | copies key and country; page size 20, start page 1, sort by publishedAt, everything else unset |
| Models.NewDownloadRequestValid | internal/newsapi/models.go:170-178 | a default request validates exactly when key and country are both non-empty |
| Models.ValidateExamples | internal/newsapi/models_test.go:11-159 | the validation tests' valid requests pass and each invalid one names the expected field |
| Models.NewsAPIResponse.IsEmpty | internal/newsapi/models.go:181-183 | a response is empty exactly when it has no articles |
| Models.NewsAPIResponse.IsError | internal/newsapi/models.go:186-188 | a delivered body is a success exactly when its status is "ok" and it has no error code |
| Models.NewsAPIResponse.ToError | internal/newsapi/models.go:191-201 | no error exactly when the body is not an error; otherwise an error with the given status and the body's code and message |
| Models.ResponseExamples | internal/newsapi/models_test.go:188-345 | IsEmpty depends only on the articles; IsError holds when the status is not "ok" or a code is present; ToError's results in the tests |
| Models.NewsAPIError.Error | internal/newsapi/models.go:74-79 | code and message appear only when both are non-empty; otherwise exactly "NewsAPI error <status>" |
| Models.APIErrorStatusReadBack | internal/newsapi/models.go:74-79 | the status can be parsed back from a short API error message (round trip through Atoi) |
| Models.APIErrorPrefixed | internal/newsapi/models.go:74-79 | every API error message starts with "NewsAPI error <status>" |
| Models.APIErrorExamples | internal/newsapi/models_test.go:347-399 | the four renderings of the API error tests |
| Models.RateLimitError.Error | internal/newsapi/models.go:89-94 | the message when one is set; otherwise "rate limit exceeded, retry after " and the duration |
| Models.RateLimitErrorExamples | internal/newsapi/models_test.go:401-441 | custom message, 30s and 0s renderings |
| Models.ValidationError.Error | internal/newsapi/models.go:102-104 | the message is the prefix, the field, "': " and the message, each found at its place |
| Models.ValidationErrorExample | internal/newsapi/models_test.go:443-455 | the api_key rendering |
| Models.FileOperationError.Error | internal/newsapi/models.go:113-115 | the message is "file operation '", the operation, "' failed for '", the path, "': " and the cause, each found at its place |
| Models.KafkaError.Error | internal/newsapi/models.go:129-132 | the message is "kafka operation '", the operation, "' failed for topic '", the topic, "' on broker '", the broker, "': " and the cause, each found at its place |
| Client.ApplyHeaders | internal/newsapi/client.go:65-86 | each limiter field takes its header's value when the header is present and parses, and keeps its value otherwise |
| Client.ApplyHeadersIdempotent | internal/newsapi/client.go:65-86 | applying the same headers twice changes nothing more |
| Client.ApplyHeadersNone | internal/newsapi/client.go:65-86 | a reply without rate-limit headers leaves the limiter unchanged |
| Client.ApplyStatusHeaders | internal/newsapi/client.go:65-86 | headers carrying any int64 status set the limiter to exactly that status, whatever it held |
| Client.ExtractRateLimits | internal/newsapi/client.go:265-287 | the same header reading over a zero record (limit 0, remaining 0, the zero time) |
| Client.ApplyHeadersAgreesWithExtract | internal/newsapi/client.go:65-86 | after an update the limiter agrees with the extracted limits on every header that parsed |
| Client.RateLimiter.constructor | internal/newsapi/client.go:56-62 | 1000 of 1000 calls left, resetting one hour after creation |
| Client.RateLimiter.UpdateFromHeaders | internal/newsapi/client.go:65-86 | the new status is ApplyHeaders of the old one |
| Client.WaitPlan | internal/newsapi/client.go:89-112 | sleeps exactly when at most 5 calls are left and the reset is ahead, and then until one second past the reset |
| Client.WaitOutcome | internal/newsapi/client.go:89-112 | interrupted exactly when a sleep is due and the context is done; waits the planned time; otherwise proceeds |
| Client.WaitBands | internal/newsapi/client.go:96-111 | the three bands: above 10 and 6..10 never wait; at most 5 waits only before the reset |
| Client.WaitResolves | internal/newsapi/client.go:101-105 | after a sleep the same limiter no longer asks to sleep |
| Client.FreshLimiterNeverWaits | internal/newsapi/client.go:56-62 | a fresh limiter never makes its first caller wait |
| Client.RateLimiter.WaitIfNeeded | internal/newsapi/client.go:89-112 | returns WaitOutcome of the limiter's fields and the clock |
| Client.QueryParams | internal/newsapi/client.go:229-262 | every parameter is one of the keys `Values.Encode` sorts |
| Client.QueryParamsContents | internal/newsapi/client.go:229-262 | q, country, language, sortBy present exactly when non-empty; pageSize, page, apiKey always; from and to exactly when not zero; each with its value |
| Client.NewsAPIClient.constructor | internal/newsapi/client.go:132-147 | a fresh limiter in its initial state, the configured base URL, delay and timeout |
| Client.NewsAPIClient.BuildURL | internal/newsapi/client.go:229-262 | the URL built step by step is the base URL, "?" and the encoded parameter map |
| Client.FetchOutcome.ErrorText | internal/newsapi/client.go:161-226 | no error text exactly for a fetched page; otherwise the wrapped text of the failure: "rate limit wait cancelled: ", "failed to make HTTP request: ", "failed to read response body: " or "failed to unmarshal JSON response: " followed by the cause, or the rate-limit or API error's own text |
| Client.HandleErrorResponse | internal/newsapi/client.go:290-314 | the error carries the status and URL; code and message from a decoded error body, otherwise "HTTP <s>: <body>" or "HTTP <s>" |
| Client.Classify | internal/newsapi/client.go:184-225 | 429 is a rate-limit signal with the extracted limits and the retry delay; then a body read failure; other non-200 an API error without limits; on 200 a decode failure, an API error with the URL, or the page |
| Client.RateLimitedExample | internal/newsapi/client_test.go:116-160 | the rate-limit test's reply (no calls remaining, a reset already past) under the default configuration: a rate-limit error with remaining calls 0, limits with remaining 0, and the default 60-second retry delay |
| Client.FutureResetExample | internal/newsapi/client.go:186-192 | a 429 reply whose reset lies ahead (a case the tests do not send): retry until one second past the reset |
| Client.FetchWaitCancelled | internal/newsapi/client.go:163-165 | a cancelled wait sends nothing and leaves the limiter, and happens only when a wait was due; otherwise the request URL is sent |
| Client.FetchUpdatesLimiter | internal/newsapi/client.go:174-184 | a transport failure leaves the limiter; every reply updates it, whatever its status |
| Client.NewsAPIClient.FetchNewsPage | internal/newsapi/client.go:161-226 | outcome, new limiter and URL sent are those of FetchSpec on the old limiter |
| Client.NewsAPIClient.ClassifyReply | internal/newsapi/client.go:184-225 | returns Classify of the reply |
| UrlQuery.QueryEscapeRoundTrip | internal/newsapi/client.go:260 | unescaping an escaped value gives back its UTF-8 bytes |
| UrlQuery.QueryEscapeNoSeparators | internal/newsapi/client.go:260 | escaped text contains no '&', '=', '?', '#' or space |
| UrlQuery.KeyOrderSorted | internal/newsapi/client.go:260 | the keys are written in sorted order |
| UrlQuery.KeysUnescaped | internal/newsapi/client.go:232-258 | every parameter name is written as it is |
| Downloader.TotalPagesCeiling | internal/newsapi/downloader.go:135-137 | the page count is the ceiling of total / pageSize: enough pages, none empty, 0 for no results |
| Downloader.TotalPagesExamples | internal/newsapi/downloader.go:135-137 | 45 results at 20 per page are 3 pages |
| Downloader.SavePageToFile | internal/newsapi/downloader.go:168-201 | succeeds exactly when directory creation and write succeed, with the generated path; each failure names its operation and path |
| Downloader.SavedPathIsValid | internal/newsapi/downloader.go:168-201 | a saved path passes ValidateFilePath and is the month directory joined with the file name |
| Downloader.PublishError.Error | internal/newsapi/downloader.go:204-221 | "Kafka publisher not initialized", or the Kafka error's message |
| Downloader.PublishFilePath | internal/newsapi/downloader.go:204-221 | no publisher is an error; with one, an error exactly when it fails, wrapped with the topic and broker |
| Downloader.DownloadError.Error | internal/newsapi/downloader.go:95-131 | the "page N: ", "failed to save page N: " and "kafka publish for P: " wrappings |
| Downloader.ExitError | internal/newsapi/downloader.go:73-164 | the run returns an error exactly when it ended early |
| Downloader.Checkpoint | internal/newsapi/downloader.go:73-77 | a done context ends the run with the message and the context's cause; otherwise only the checkpoint is used |
| Downloader.RateLimitedFrom429 | internal/newsapi/client.go:187-199 | a rate-limit outcome comes only from a 429 reply |
| Downloader.AfterFetchProgress | internal/newsapi/downloader.go:80-160 | after a fetch the page stays or advances by one; totals change only on the start page; staying without ending means a rate-limit retry |
| Downloader.StepProgress | internal/newsapi/downloader.go:72-160 | an iteration ends the run, advances the page, or retries the page after a 429 with totals unchanged |
| Downloader.CancelledBeforeFetch | internal/newsapi/downloader.go:73-77 | a context done at the top of the loop ends the run with "download cancelled: " before any fetch |
| Downloader.StepFetches | internal/newsapi/downloader.go:80 | otherwise the iteration fetches the current page and continues with the outcome |
| Downloader.RateLimitRetriesPage | internal/newsapi/downloader.go:83-92 | a rate-limit signal keeps the page, totals, paths and errors; the run ends only if the context is done during the wait |
| Downloader.APIErrorRecorded | internal/newsapi/downloader.go:95-100 | an API error is appended to Errors and ends the run with "API error on page N: " and its message |
| Downloader.APIErrorAborts | internal/newsapi/downloader.go:95-100 | after an API error the run stops: no later page is requested |
| Downloader.FetchFailureSkipsPage | internal/newsapi/downloader.go:95-105 | any other fetch failure is recorded and the page skipped, nothing else changed |
| Downloader.SaveFailureSkipsPage | internal/newsapi/downloader.go:114-120 | a save failure is recorded and the page skipped; nothing saved or published |
| Downloader.SavedPageRecorded | internal/newsapi/downloader.go:122-155 | a saved page is counted, recorded and published (a publish failure only recorded); the start page sets the totals; the delay before a next page can end the run |
| Downloader.StartConsistent | internal/newsapi/downloader.go:59-66 | the run starts consistent and not ended |
| Downloader.AfterFetchKeeps | internal/newsapi/downloader.go:80-155 | after the fetch the bookkeeping holds, lists only grow, and an end is a proper one |
| Downloader.StepKeeps | internal/newsapi/downloader.go:72-155 | one iteration keeps PagesDownloaded == len(FilePaths), one publish per saved path, only appends, and ends only properly |
| Downloader.DownloadKeeps | internal/newsapi/downloader.go:72-164 | the whole run keeps that bookkeeping, only appends, stops only when the pages ran out or it ended, and ends only by cancellation or on the last recorded API error |
| Downloader.LaterStartPageFetchesNothing | internal/newsapi/downloader.go:65-72 | with a start page after 1 nothing is fetched |
| Downloader.FirstPageRequested | internal/newsapi/downloader.go:65-80 | with start page 1 and a context not yet done, page 1 is the first page requested |
| Downloader.DownloadResult.constructor | internal/newsapi/downloader.go:59-64 | the start time, no paths, pages or errors, zero end time and duration |
| Downloader.NewsDownloader.constructor | internal/newsapi/downloader.go:25-31 | the client, publisher and configuration given; artifacts under the configured output directory |
| Downloader.NewsDownloader.DownloadAllNewsToFile | internal/newsapi/downloader.go:50-165 | an invalid request returns no result and the wrapped validation error before any fetch; otherwise the result is Download's final state, PagesDownloaded == len(FilePaths), the error is the exit message (none when the pages ran out), end time and duration set only then |
| Downloader.NewsDownloader.Iteration | internal/newsapi/downloader.go:72-156 | one pass of the body takes the loop's state to Step of it |
| Downloader.NewsDownloader.HandleOutcome | internal/newsapi/downloader.go:81-156 | the part after the fetch takes the state to AfterFetch of it |
| Downloader.NewsDownloader.RecordFailure | internal/newsapi/downloader.go:95-105 | a failed fetch takes the state to AfterFetch of it |
| Downloader.NewsDownloader.SaveAndPublish | internal/newsapi/downloader.go:114-155 | saving, publishing, totals and delay take the state to AfterSave of it |
| Downloader.NewsDownloader.AdvancePage | internal/newsapi/downloader.go:134-155 | the start page sets the totals, the page advances, and the delay before a next page may find the context done: the state becomes NextPage of it |
| Configuration.DefaultConfig | internal/config/config.go:24-35 | the defaults pass validation |
| Configuration.Validate | internal/config/config.go:118-152 | no error exactly for a valid configuration; otherwise the message of the first rule broken, in the source's order |
| Configuration.ParseIntFromEnv | internal/config/config.go:173-186 | success exactly for a non-empty value Atoi accepts (an optional sign and digits in the int64 range); "" and everything else are errors |
| Configuration.ParseIntFromEnvRoundTrip | internal/config/config.go:173-186 | every int64 printed in decimal parses back |
| Configuration.ParseIntFromEnvExamples | internal/config/config_test.go:627-691 | "42", "0", "-10" parse; "", "not-a-number", "42.5" do not |
| Configuration.IntSetting | internal/config/config.go:72-108 | an integer variable contributes a value exactly when it parses and lies in its range |
| Configuration.OverrideInt | internal/config/config.go:72-108 | one integer variable replaces the current value exactly when it is set, parses and is in range |
| Configuration.LoadConfigFromEnv | internal/config/config.go:69-115 | the field-by-field overrides give FromEnv of the environment, which always validates |
| Configuration.FromEnvValid | internal/config/config.go:69-115 | whatever the environment holds, the configuration it selects is valid |
| Configuration.FromEnvUnset | internal/config/config.go:69-115 | with nothing set the defaults are used |
| Configuration.FromEnvOverrideExample | internal/config/config_test.go:221-287 | valid values override their defaults |
| Configuration.FromEnvFallbackExamples | internal/config/config_test.go:288-313 | unparsable or out-of-range values leave the defaults |
| Configuration.Overlay | internal/config/config.go:55-58 | each of the eight fields takes the file's value when the file has it, and keeps the current value otherwise |
| Configuration.LoadConfig | internal/config/config.go:38-66 | success exactly for a non-empty path whose decoded file, laid over the defaults, validates; the result is that overlay |
| Configuration.LoadEmptyFile | internal/config/config.go:55-65 | an empty document loads as the defaults |
| Configuration.LoadConfigExamples | internal/config/config_test.go:57-219 | a partial file merges with the defaults; invalid values and malformed JSON are refused |
| Configuration.SaveConfig | internal/config/config.go:155-170 | an invalid configuration is refused before anything is written; a valid one is written in full, failing only with the write |
| Configuration.SaveLoadRoundTrip | internal/config/config.go:38-170 | a configuration saved without error loads back unchanged |
| Configuration.SaveInvalidExample | internal/config/config_test.go:585-609 | the invalid configuration of the save test is refused and nothing is written |
| FileUtils.MockTimeProvider.constructor | pkg/utils/file_utils.go:30-32 | holds the given time |
| FileUtils.MockTimeProvider.SetTime | pkg/utils/file_utils.go:40-42 | only the fixed time changes |
| FileUtils.FilePathGenerator.constructor | pkg/utils/file_utils.go:50-58 | a missing provider means the system clock |
| FileUtils.FilePathGenerator.GenerateJSONFilePath | pkg/utils/file_utils.go:67-81 | the same paths as GenerateJSONFilePathWithTime at the provider's current time (the mock's fixed time) |
| FileUtils.GenerateJSONFilePathWithTime | pkg/utils/file_utils.go:84-96 | neither path is empty |
| FileUtils.GeneratedPathInDir | pkg/utils/file_utils.go:84-96 | for every base the path is the directory, "/" and the file name, and both pass ValidateFilePath |
| FileUtils.GeneratedDirShape | pkg/utils/file_utils.go:92 | for a clean base the directory is exactly base/yyyy/mm |
| FileUtils.GeneratedDirIsClean | pkg/utils/file_utils.go:92 | the generated directory is clean and is neither "." nor "/" |
| FileUtils.FileNameIsName | pkg/utils/file_utils.go:87-90 | with a separator-free country the file name is one path element |
| FileUtils.ValidateFilePath | pkg/utils/file_utils.go:99-116 | no error exactly for a non-empty path that Clean leaves unchanged |
| FileUtils.CleanedPathIsValid | pkg/utils/file_utils.go:99-116 | every result of Clean passes validation |
| FileUtils.ValidateFilePathExamples | pkg/utils/file_utils_test.go:32-63 | "test/file.txt" and "/tmp/test.txt" pass; "" and "a//b" fail |
| FileUtils.GeneratorExample | pkg/utils/file_utils_test.go:9-30 | a mock at 2025-08-15 12:00:00 gives "/tmp/test_news/2025/08" and ".../2025-08-15_12-00-00_us_page2.json" |
| FileUtils.GeneratorExamplePaths | pkg/utils/file_utils_test.go:9-30 | the same two paths from GenerateJSONFilePathWithTime |
| TimeFormat.FileStampShape | pkg/utils/file_utils.go:85-90 | for a four-digit year the stamp is the fixed 19-character form, year and month at their places |
| TimeFormat.FileStampNumeric | pkg/utils/file_utils.go:88 | the stamp contains no path separator |
| TimeFormat.FormatIntSpec | pkg/utils/file_utils.go:85-90 | a field is zero-padded to its width and reads back as its value |
| TimeFormat.DurationExamples | internal/newsapi/models.go:93 | whole-second durations render as Go prints them ("30s", "1m0s", "1h2m5s") |
| Decimal.AtoiIntToString | internal/newsapi/client.go:69-84 | Atoi reads back every int64 that `%d` prints |
| Decimal.PadSpec | pkg/utils/file_utils.go:85-90 | a padded number is all digits, at least the width, exactly the width when it fits, and reads back |
| FilePath.CleanIdempotent | pkg/utils/file_utils.go:110-113 | cleaning a cleaned path changes nothing |
| FilePath.CleanExtend | pkg/utils/file_utils.go:92-93 | a clean path followed by one more name stays clean |
| FilePath.JoinSmall | pkg/utils/file_utils.go:92-93 | joining non-empty-first elements is cleaning them joined with "/" |
| FilePath.ElementsOfRender | pkg/utils/file_utils.go:110 | a rendered stack splits back into the same elements |
| KafkaProducer.WaitError | internal/kafka_producer/producer.go:91-106 | no error exactly for a delivery report without error |
| KafkaProducer.PublishResult | internal/kafka_producer/producer.go:62-107 | closed first, then the empty topic, then the library's refusal, then the wait's outcome |
| KafkaProducer.PublishSucceeds | internal/kafka_producer/producer.go:62-107 | a publish succeeds exactly when the message was handed over, accepted and reported delivered |
| KafkaProducer.DeliveryOutcomes | internal/kafka_producer/producer.go:91-106 | delivery failed, publish cancelled, timeout after 30 seconds, or none, each with its message |
| KafkaProducer.NewProducerResult | internal/kafka_producer/producer.go:28-54 | success exactly for a non-empty broker the library accepts; the empty broker is refused first |
| KafkaProducer.Producer.constructor | internal/kafka_producer/producer.go:46-48 | open, nothing handed over, not shut down |
| KafkaProducer.Producer.PublishWithContext | internal/kafka_producer/producer.go:62-107 | returns PublishResult; the message reaches the library only when open and the topic is not empty; the flag is unchanged |
| KafkaProducer.Producer.Publish | internal/kafka_producer/producer.go:57-59 | the same under a context that is never done |
| KafkaProducer.Producer.Close | internal/kafka_producer/producer.go:127-142 | afterwards closed, with the library shut down exactly once however often Close is called; always no error |
| KafkaProducer.NewProducer | internal/kafka_producer/producer.go:28-54 | a producer exactly when NewProducerResult has no error, and then open |
| KafkaProducer.PublishToKafkaResult | internal/kafka_producer/producer.go:145-153 | the creation error, else the publish's error |
| KafkaProducer.PublishToKafkaEmptyBroker | internal/kafka_producer/producer.go:145-153 | an empty broker fails before any producer exists |
| KafkaProducer.PublishToKafka | internal/kafka_producer/producer.go:145-153 | the error is PublishToKafkaResult; a producer created is always closed, shut down once, and saw at most the one message |
| KafkaProducer.CloseTwiceThenPublish | internal/kafka_producer/producer_test.go:219-249 | closing twice returns no error both times, and a later publish is refused with nothing handed over |

## Left out

- Header names are not canonicalised. A reply's header map holds, under each of the three names
  "X-RateLimit-Limit", "X-RateLimit-Remaining" and "X-RateLimit-Reset", the value `Header.Get`
  returns for it. `Header.Get`'s case-insensitive matching (the tests spell "X-Ratelimit-Reset")
  is not modelled.
- I/O is not performed. The clocks, the HTTP transport, the file system, the configuration file's
  bytes, the environment and the Kafka library are inputs. JSON encoding and decoding are not
  modelled; a body arrives decoded or with the decoder's error.
- Logging (`log.Printf`) is left out; it has no effect on results.
- Concurrency is left out. This covers the mutexes of `RateLimiter` and `Producer`, and the
  `handleDeliveryReports` goroutine (internal/kafka_producer/producer.go:110-124), which only logs.
- The real clock, sleeping and timers (`time.After`, the 500 ms delay between pages, the
  rate-limit wait, the 30 s publish timeout) become abstract checkpoints. At a checkpoint the
  context is done or not, and the timeout is one outcome of the delivery wait.
- When a timer and a done context are both ready, Go's `select` chooses either branch. The model
  always takes the context branch.
- Durations are whole seconds. The sub-second part of `time.Until` and the fractional renderings of
  `Duration.String` are not modelled.
- In the 429 branch Go reads `time.Now()` twice; the model uses one reading (`FetchEnv.replyTime`).
- Calendar conversion is not modelled. An instant is Unix seconds and a printed time is a
  broken-down `Timestamp`; the zero time is `ZeroInstant` and `ZeroTime`.
- `UrlQuery.Encode` covers the parameter names a request can carry, one value each, which is all
  `buildURL` produces. `Unescape` reads ASCII input only.
- Downloader.SavePageToFile: the "marshal JSON" failure is not modelled, because marshalling a
  decoded response cannot fail in practice and the model has no JSON.
- Downloader.NewsDownloader.DownloadAllNewsToFile: termination is proved under `RateLimitsEnd` (only
  finitely many 429 replies). The counters `fetches`, `saves`, `publishes`, `ticks`, the
  `requested` pages and the `published` paths are ghost bookkeeping of the model.
- The publisher seen by the downloader is an interface. Its results are an oracle; the concrete
  `Producer` is modelled separately in `KafkaProducer`.
- `NewNewsDownloaderWithDefaults` and `NewsDownloader.Close` (internal/newsapi/downloader.go:34-47,
  224-229) are not modelled. They only wire the real producer and forward `Close`.
- The legacy wrapper `DownloadAllNewsToFile(apiKey, …)` (internal/newsapi/downloader.go:232-253) is
  not modelled.
- `NewNewsAPIClientWithHTTPClient`, `GetRateLimitStatus`, `defaultHTTPClient` and `MockHTTPClient`
  (internal/newsapi/client.go:25-45, 149-158, 316-401) are test wiring or forwarding; they are not
  modelled.
- `EnsureDirectoryExists`, `GetFileSize` and `FileExists` (pkg/utils/file_utils.go:118-165) are file
  I/O and are not modelled.
- The package-global default generator and `SetTimeProvider` (pkg/utils/file_utils.go:167-180) are
  not modelled as globals. `FilePathGenerator` models the same behaviour per instance.
- The legacy packages newsapi/, utils/ and kafka_producer/ at the top level, main.go and
  cmd/downloader/main.go are not part of this model. They are duplicates or command-line wiring.
- Configuration.ParseIntFromEnv: the error text for a malformed value is "invalid integer format"
  without `strconv`'s wrapped error, which is not modelled.
- `strconv.Atoi`'s error kinds are not modelled; `Atoi` returns `None`.
- The config file's "failed to marshal config to JSON" error (internal/config/config.go:160-163) is
  not modelled. A `Config` always marshals.
- The JSON field tags and the serialization tests are left out (no JSON).
